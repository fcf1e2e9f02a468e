/** The observability log: a second hash chain, verified before every append and anchored by its head. */
module Observability {
  import opened Wrappers
  import opened Ordering

  /** The 64 zeros every chain starts from, in four parts. */
  const ZEROS := "0000000000000000"
  const GENESIS := ZEROS + ZEROS + ZEROS + ZEROS
  const EVENT_FORMAT := "shinka-observability-event-v1"
  const SCHEMA_VERSION := 1
  const MAX_IDENTIFIER_CHARS := 160
  const MAX_RECORD_IDS := 512

  // ---- Fields ----

  /** A decoded JSON value, as far as the validators tell values apart. */
  datatype Value = Text(text: string) | Number(number: int) | Ids(ids: seq<string>) | Other(what: string)

  datatype Kind = Digest | Count | Identifier | ExitCode | RecordIds

  datatype TurnPolicy = Required | Optional | Forbidden

  datatype EventSpec = EventSpec(required: set<string>, optional: set<string>, turn: TurnPolicy)

  /** The event table and the validator registered for each field name. */
  datatype Schema = Schema(specs: map<string, EventSpec>, kinds: map<string, Kind>)

  predicate IsDigest(s: string) {
    |s| == 64 && forall i :: 0 <= i < |s| ==> '0' <= s[i] <= '9' || 'a' <= s[i] <= 'f'
  }

  predicate Alphanumeric(c: char) {
    'A' <= c <= 'Z' || 'a' <= c <= 'z' || '0' <= c <= '9'
  }

  predicate IsIdentifier(s: string) {
    && 1 <= |s| <= MAX_IDENTIFIER_CHARS && Alphanumeric(s[0])
    && forall i :: 0 <= i < |s| ==> Alphanumeric(s[i]) || s[i] in "_.:-"
  }

  predicate GoodIds(ids: seq<string>) {
    && 1 <= |ids| <= MAX_RECORD_IDS
    && (forall x :: x in ids ==> IsIdentifier(x))
    && (forall i, j :: 0 <= i < j < |ids| ==> ids[i] != ids[j])
  }

  /** A field's value in canonical form, or nothing when its validator refuses it. */
  function NormalValue(kind: Kind, v: Value): Option<Value> {
    match (kind, v)
    case (Digest, Text(s)) => if IsDigest(s) then Some(v) else None
    case (Count, Number(n)) => if n >= 0 then Some(v) else None
    case (Identifier, Text(s)) => if IsIdentifier(s) then Some(v) else None
    case (ExitCode, Number(n)) => if -65535 <= n <= 65535 then Some(v) else None
    case (RecordIds, Ids(ids)) => if GoodIds(ids) then Some(Ids(Sorted(ids))) else None
    case _ => None
  }

  predicate Supplied(spec: EventSpec, names: set<string>) {
    spec.required <= names <= spec.required + spec.optional
  }

  function NormalFields(schema: Schema, event: string, fields: map<string, Value>): Option<map<string, Value>> {
    if event !in schema.specs || !Supplied(schema.specs[event], fields.Keys) then None
    else if exists n :: n in fields && (n !in schema.kinds || NormalValue(schema.kinds[n], fields[n]).None?) then None
    else Some(map n | n in fields :: NormalValue(schema.kinds[n], fields[n]).value)
  }

  predicate TurnOk(policy: TurnPolicy, turn: Option<int>) {
    match turn
    case None => policy != Required
    case Some(t) => policy != Forbidden && t > 0
  }

  lemma {:induction false} SortedIsNoLonger(xs: seq<string>)
    ensures |Sorted(xs)| <= |xs|
  {
    if xs != [] {
      SortedIsNoLonger(xs[1..]);
      InsertAddsOne(xs[0], Sorted(xs[1..]));
    }
  }

  lemma {:induction false} InsertAddsOne(x: string, s: seq<string>)
    requires Ascending(s)
    ensures |Insert(x, s)| <= |s| + 1
  {
    if s != [] { InsertAddsOne(x, s[1..]); }
  }

  lemma NormalValueIsNormal(kind: Kind, v: Value)
    requires NormalValue(kind, v).Some?
    ensures NormalValue(kind, NormalValue(kind, v).value) == NormalValue(kind, v)
  {
    if kind == RecordIds {
      var s := Sorted(v.ids);
      AscendingHasNoRepeats(s);
      SortedIsNoLonger(v.ids);
      assert v.ids[0] in s;
      AscendingIsUnique(Sorted(s), s);
    }
  }

  /** Normalizing twice is normalizing once. */
  lemma NormalFieldsAreNormal(schema: Schema, event: string, fields: map<string, Value>)
    requires NormalFields(schema, event, fields).Some?
    ensures var normal := NormalFields(schema, event, fields).value; NormalFields(schema, event, normal) == Some(normal)
  {
    hide NormalValue;
    var normal := NormalFields(schema, event, fields).value;
    assert normal.Keys == fields.Keys;
    forall n | n in normal ensures n in schema.kinds && NormalValue(schema.kinds[n], normal[n]) == Some(normal[n]) {
      assert n in fields;
      NormalValueIsNormal(schema.kinds[n], fields[n]);
    }
    assert (map n | n in normal :: NormalValue(schema.kinds[n], normal[n]).value) == normal;
  }

  /** What the validator of each kind lets through. */
  predicate Fits(kind: Kind, v: Value) {
    match kind
    case Digest => v.Text? && |v.text| == 64 && forall c :: c in v.text ==> c in "0123456789abcdef"
    case Count => v.Number? && v.number >= 0
    case Identifier => v.Text? && IsName(v.text)
    case ExitCode => v.Number? && -65535 <= v.number <= 65535
    case RecordIds => v.Ids? && 1 <= |v.ids| <= 512 && (forall x :: x in v.ids ==> IsName(x)) && Ascending(v.ids)
  }

  /** 1 to 160 characters, the first a letter or a digit. */
  predicate IsName(s: string) {
    && 1 <= |s| <= 160 && s[0] !in "_.:-"
    && forall c :: c in s ==> 'A' <= c <= 'Z' || 'a' <= c <= 'z' || '0' <= c <= '9' || c in "_.:-"
  }

  /** A record's event is known, its turn is as the event wants it, and its fields are the event's and fit. */
  lemma BodyFits(config: Config, c: Core)
    requires BodyOk(config, c)
    ensures c.event in config.schema.specs && IsName(c.event) && IsName(c.campaign) && IsName(c.component)
    ensures var spec := config.schema.specs[c.event];
            && (spec.turn == Required ==> c.turn.Some?) && (spec.turn == Forbidden ==> c.turn.None?)
            && (c.turn.Some? ==> c.turn.value > 0)
            && spec.required <= c.fields.Keys <= spec.required + spec.optional
    ensures forall n :: n in c.fields ==> n in config.schema.kinds && Fits(config.schema.kinds[n], c.fields[n])
  {
    IdentifiersAreNames();
    hide IsIdentifier, IsName;
    var normal := NormalFields(config.schema, c.event, c.fields);
    forall n | n in c.fields ensures n in config.schema.kinds && Fits(config.schema.kinds[n], c.fields[n]) {
      assert normal.value[n] == c.fields[n] == NormalValue(config.schema.kinds[n], c.fields[n]).value;
      NormalValueFits(config.schema.kinds[n], c.fields[n]);
    }
  }

  lemma IdentifiersAreNames()
    ensures forall s :: IsIdentifier(s) ==> IsName(s)
  {
  }

  lemma NormalValueFits(kind: Kind, v: Value)
    requires NormalValue(kind, v) == Some(v)
    ensures Fits(kind, v)
  {
    IdentifiersAreNames();
    hide IsIdentifier, IsName;
    if kind == Digest {
      forall c | c in v.text ensures c in "0123456789abcdef" {
        var i :| 0 <= i < |v.text| && v.text[i] == c;
        HexDigit(c);
      }
    }
  }

  lemma HexDigit(c: char)
    requires '0' <= c <= '9' || 'a' <= c <= 'f'
    ensures c in "0123456789abcdef"
  {
    var digits := "0123456789abcdef";
    if '0' <= c <= '9' {
      assert digits[c as int - '0' as int] == c;
    } else {
      assert digits[c as int - 'a' as int + 10] == c;
    }
  }

  // ---- Records ----

  datatype Core = Core(
    format: string, version: int, sequence: int, timestamp: string, campaign: string, component: string,
    turn: Option<int>, event: string, fields: map<string, Value>, previous: string)

  /**
    One line of the file: not a JSON object with the whole envelope, or an
    object with its claimed hash ("" when that is no string), whose core is
    missing when a value has the wrong JSON type, and perhaps unknown fields.
   */
  datatype Line = Unreadable | Object(core: Option<Core>, hash: string, unknown: bool)

  type Hash = Core -> string

  datatype ChainHead = ChainHead(count: nat, hash: string)

  datatype Config = Config(schema: Schema, hash: Hash, timeOk: string -> bool)

  /** The hash the next record must point back to: the last well-formed claimed hash. */
  function HeadHash(lines: seq<Line>): string {
    if lines == [] then GENESIS
    else
      var last := lines[|lines| - 1];
      if last.Object? && IsDigest(last.hash) then last.hash else HeadHash(lines[..|lines| - 1])
  }

  predicate BodyOk(config: Config, c: Core) {
    && config.timeOk(c.timestamp) && IsIdentifier(c.campaign) && IsIdentifier(c.component) && IsIdentifier(c.event)
    && c.event in config.schema.specs && TurnOk(config.schema.specs[c.event].turn, c.turn)
    && NormalFields(config.schema, c.event, c.fields) == Some(c.fields)
  }

  datatype Fault =
    | NotARecord | Malformed | WrongFormat | WrongVersion | WrongSequence | BadBody | BadPrevious | PreviousMismatch
    | BadHash | HashMismatch | CampaignChanged | CampaignUnexpected

  /** The first check a record fails, in the order they are made. */
  function FirstFault(config: Config, line: Line, index: nat, previous: string, observed: Option<string>,
      expected: Option<string>): Option<Fault>
  {
    if line.Unreadable? then Some(NotARecord)
    else if line.core.None? then Some(Malformed)
    else
      var c := line.core.value;
      if c.format != EVENT_FORMAT then Some(WrongFormat)
      else if c.version != SCHEMA_VERSION then Some(WrongVersion)
      else if c.sequence != index then Some(WrongSequence)
      else if !BodyOk(config, c) then Some(BadBody)
      else if !IsDigest(c.previous) then Some(BadPrevious)
      else if c.previous != previous then Some(PreviousMismatch)
      else if !IsDigest(line.hash) then Some(BadHash)
      else if config.hash(c) != line.hash then Some(HashMismatch)
      else if observed.Some? && observed.value != c.campaign then Some(CampaignChanged)
      else if expected.Some? && expected.value != c.campaign then Some(CampaignUnexpected)
      else None
  }

  // ---- A valid log ----

  predicate Chained(config: Config, lines: seq<Line>, i: nat)
    requires i < |lines|
  {
    && lines[i].Object? && !lines[i].unknown && lines[i].core.Some?
    && var c := lines[i].core.value;
       && c.format == EVENT_FORMAT && c.version == SCHEMA_VERSION && c.sequence == i
       && BodyOk(config, c)
       && IsDigest(lines[i].hash) && config.hash(c) == lines[i].hash
       && c.previous == (if i == 0 then GENESIS else if lines[i - 1].Object? then lines[i - 1].hash else "")
  }

  predicate OfCampaign(line: Line, campaign: string) {
    line.Object? && line.core.Some? && line.core.value.campaign == campaign
  }

  predicate AllOf(lines: seq<Line>, campaign: string) {
    forall i :: 0 <= i < |lines| ==> OfCampaign(lines[i], campaign)
  }

  /** Every record is well formed, numbered by its line, linked to the one before and of one campaign. */
  ghost predicate Sound(config: Config, lines: seq<Line>, expected: Option<string>) {
    && (forall i: nat :: i < |lines| ==> Chained(config, lines, i))
    && (exists campaign :: AllOf(lines, campaign) && (expected.None? || expected.value == campaign))
  }

  function HeadOf(lines: seq<Line>): ChainHead {
    ChainHead(|lines|, HeadHash(lines))
  }

  lemma GenesisIsDigest()
    ensures IsDigest(GENESIS)
  {
    assert |ZEROS| == 16 && forall i :: 0 <= i < |ZEROS| ==> ZEROS[i] == '0';
    hide ZEROS;
    assert forall i :: 0 <= i < |GENESIS| ==> GENESIS[i] == ZEROS[i % 16];
  }

  lemma {:induction false} HeadHashIsDigest(lines: seq<Line>)
    ensures IsDigest(HeadHash(lines))
  {
    GenesisIsDigest();
    hide GENESIS, IsDigest;
    if lines != [] { HeadHashIsDigest(lines[..|lines| - 1]); }
  }

  lemma ChainedPrefix(config: Config, lines: seq<Line>, n: nat)
    requires n <= |lines|
    ensures forall i: nat :: i < n ==> Chained(config, lines[..n], i) == Chained(config, lines, i)
  {
    hide GENESIS, BodyOk, IsDigest;
    assert forall i :: 0 <= i < n ==> lines[..n][i] == lines[i];
  }

  lemma {:induction false} SoundPrefix(config: Config, lines: seq<Line>, expected: Option<string>, n: nat)
    requires Sound(config, lines, expected) && n <= |lines|
    ensures Sound(config, lines[..n], expected)
  {
    hide GENESIS, Chained;
    ChainedPrefix(config, lines, n);
    var campaign :| AllOf(lines, campaign) && (expected.None? || expected.value == campaign);
    assert AllOf(lines[..n], campaign);
  }

  // ---- Verifying ----

  datatype Error = PartialRecord | BadLine(line: nat,
      fault: Fault) | UnknownFields(line: nat) | CountMismatch | HeadMismatch

  datatype Verification = Verification(head: ChainHead, errors: seq<Error>)

  ghost predicate Accepted(config: Config, lines: seq<Line>, unfinished: bool, expected: Option<string>,
      anchor: Option<ChainHead>) {
    !unfinished && Sound(config, lines, expected) && (anchor.Some? ==> anchor.value == HeadOf(lines))
  }

  function Campaign(line: Line): string
    requires line.Object? && line.core.Some?
  {
    line.core.value.campaign
  }

  /** The campaign of the first record, once there is one. */
  function Observed(lines: seq<Line>): Option<string> {
    if lines == [] || !lines[0].Object? || lines[0].core.None? then None else Some(Campaign(lines[0]))
  }

  lemma SoundCampaign(config: Config, lines: seq<Line>, expected: Option<string>)
    requires Sound(config, lines, expected) && lines != []
    ensures Observed(lines).Some? && AllOf(lines, Observed(lines).value)
    ensures expected.Some? ==> expected == Observed(lines)
  {
    hide GENESIS, Chained;
    var campaign :| AllOf(lines, campaign) && (expected.None? || expected.value == campaign);
    assert OfCampaign(lines[0], campaign);
  }

  lemma SoundHead(config: Config, lines: seq<Line>, expected: Option<string>)
    requires Sound(config, lines, expected) && lines != []
    ensures lines[|lines| - 1].Object? && HeadHash(lines) == lines[|lines| - 1].hash
  {
    hide GENESIS, BodyOk, IsDigest;
    assert Chained(config, lines, |lines| - 1);
  }

  lemma SoundOneMore(config: Config, lines: seq<Line>, line: Line, expected: Option<string>)
    requires Sound(config, lines, expected)
    ensures Sound(config, lines + [line], expected) <==>
              && Chained(config, lines + [line], |lines|)
              && (lines != [] ==> Campaign(line) == Observed(lines).value)
              && (expected.Some? ==> Campaign(line) == expected.value)
  {
    hide GENESIS, BodyOk, IsDigest;
    var more := lines + [line];
    var n := |lines|;
    assert more[..n] == lines;
    ChainedPrefix(config, more, n);
    assert more[n] == line;
    if lines != [] { SoundCampaign(config, lines, expected); }
    if Sound(config, more, expected) {
      SoundCampaign(config, more, expected);
      assert OfCampaign(more[n], Observed(more).value);
    }
    if Chained(config, more, n) && (lines != [] ==> Campaign(line) == Observed(lines).value)
        && (expected.Some? ==> Campaign(line) == expected.value) {
      assert AllOf(more, Campaign(line));
    }
  }

  lemma FaultlessIsChained(config: Config, lines: seq<Line>, line: Line, expected: Option<string>)
    requires Sound(config, lines, expected)
    ensures FirstFault(config, line, |lines|, HeadHash(lines), Observed(lines), expected).None?
            && !(line.Object? && line.unknown) <==>
              && Chained(config, lines + [line], |lines|)
              && (lines != [] ==> Campaign(line) == Observed(lines).value)
              && (expected.Some? ==> Campaign(line) == expected.value)
  {
    hide GENESIS, BodyOk, IsDigest, Sound, HeadHash;
    HeadHashIsDigest(lines);
    if lines != [] {
      SoundHead(config, lines, expected);
      SoundCampaign(config, lines, expected);
    } else {
      NoHead();
    }
  }

  lemma NoHead()
    ensures HeadHash([]) == GENESIS
  {
  }

  /** One more line is sound after a sound prefix exactly when no check fails. */
  lemma OneMoreLine(config: Config, lines: seq<Line>, line: Line, expected: Option<string>)
    requires Sound(config, lines, expected)
    ensures Sound(config, lines + [line], expected) <==>
              FirstFault(config, line, |lines|, HeadHash(lines), Observed(lines), expected).None?
                  && !(line.Object? && line.unknown)
  {
    hide GENESIS, Sound, FirstFault, Chained;
    SoundOneMore(config, lines, line, expected);
    FaultlessIsChained(config, lines, line, expected);
  }

  /** A log with an unsound beginning is unsound. */
  lemma UnsoundStays(config: Config, lines: seq<Line>, line: Line, expected: Option<string>)
    requires !Sound(config, lines, expected)
    ensures !Sound(config, lines + [line], expected)
  {
    hide GENESIS, Sound;
    assert (lines + [line])[..|lines|] == lines;
    if Sound(config, lines + [line], expected) {
      SoundPrefix(config, lines + [line], expected, |lines|);
    }
  }

  lemma NothingObserved()
    ensures Observed([]) == None
  {
  }

  lemma EmptyIsSound(config: Config, expected: Option<string>)
    ensures Sound(config, [], expected)
  {
    var campaign := if expected.Some? then expected.value else "";
    assert AllOf([], campaign);
  }

  lemma NextHead(lines: seq<Line>, line: Line)
    ensures HeadHash(lines + [line]) == if line.Object? && IsDigest(line.hash) then line.hash else HeadHash(lines)
  {
    assert (lines + [line])[..|lines|] == lines;
  }

  lemma NextObserved(lines: seq<Line>, line: Line)
    ensures lines != [] ==> Observed(lines + [line]) == Observed(lines)
    ensures lines == [] && line.Object? && line.core.Some? ==> Observed(lines + [line]) == Some(Campaign(line))
  {
  }

  lemma FaultlessRecord(config: Config, line: Line, index: nat, previous: string, observed: Option<string>,
      expected: Option<string>)
    ensures var fault := FirstFault(config, line, index, previous, observed, expected);
            && (line.Unreadable? ==> fault.Some?)
            && (fault.None? || fault.value == CampaignUnexpected ==>
                line.Object? && line.core.Some? && IsDigest(line.hash))
  {
    hide GENESIS, BodyOk, IsDigest;
  }

  /** Everything one turn of the verification loop relies on. */
  lemma LineStep(config: Config, before: seq<Line>, line: Line, observed: Option<string>, expected: Option<string>)
    requires Sound(config, before, expected) ==> observed == Observed(before)
    ensures var more := before + [line];
            var fault := FirstFault(config, line, |before|, HeadHash(before), observed, expected);
            && HeadHash(more) == (if line.Object? && IsDigest(line.hash) then line.hash else HeadHash(before))
            && (Sound(config, more, expected) <==>
                  Sound(config, before, expected) && fault.None? && line.Object? && !line.unknown)
            && (Sound(config, more, expected) ==>
                  Observed(more) == if observed.Some? then observed else Some(line.core.value.campaign))
            && (line.Unreadable? ==> fault.Some?)
            && (fault.None? || fault.value == CampaignUnexpected ==>
                line.Object? && line.core.Some? && IsDigest(line.hash))
  {
    hide GENESIS, FirstFault, Sound, HeadHash, IsDigest;
    var fault := FirstFault(config, line, |before|, HeadHash(before), observed, expected);
    NextHead(before, line);
    FaultlessRecord(config, line, |before|, HeadHash(before), observed, expected);
    if Sound(config, before, expected) {
      OneMoreLine(config, before, line, expected);
      NextObserved(before, line);
      if before != [] { SoundCampaign(config, before, expected); }
    } else {
      UnsoundStays(config, before, line, expected);
    }
  }

  /**
    Goes through all lines, going on after a fault from the hash the faulty
    record claims, and accepts exactly the sound, complete, anchored logs.
   */
  method VerifyText(config: Config, lines: seq<Line>, unfinished: bool, expected: Option<string>,
      anchor: Option<ChainHead>)
    returns (v: Verification)
    ensures v.head == HeadOf(lines)
    ensures v.errors == [] <==> Accepted(config, lines, unfinished, expected, anchor)
  {
    hide GENESIS, Sound, FirstFault, IsDigest, HeadHash, Observed;
    var errors := if unfinished then [PartialRecord] else [];
    var previous, head, observed := GENESIS, GENESIS, None;
    var i := 0;
    NoHead();
    EmptyIsSound(config, expected);
    NothingObserved();
    assert lines[..0] == [];
    while i < |lines|
      invariant 0 <= i <= |lines|
      invariant previous == head == HeadHash(lines[..i])
      invariant errors == [] <==> !unfinished && Sound(config, lines[..i], expected)
      invariant Sound(config, lines[..i], expected) ==> observed == Observed(lines[..i])
    {
      var line := lines[i];
      assert lines[..i + 1] == lines[..i] + [line];
      LineStep(config, lines[..i], line, observed, expected);
      var index := i;
      i := i + 1;
      var fault := FirstFault(config, line, index, previous, observed, expected);
      if line.Unreadable? {
        errors := errors + [BadLine(index, NotARecord)];
        continue;
      }
      if line.unknown { errors := errors + [UnknownFields(index)]; }
      if fault.Some? {
        errors := errors + [BadLine(index, fault.value)];
        if fault.value == CampaignUnexpected && observed.None? { observed := Some(Campaign(line)); }
        if IsDigest(line.hash) { previous, head := line.hash, line.hash; }
      } else {
        if observed.None? { observed := Some(Campaign(line)); }
        previous, head := line.hash, line.hash;
      }
    }
    assert lines[..i] == lines;
    if anchor.Some? {
      if anchor.value.count != |lines| { errors := errors + [CountMismatch]; }
      if anchor.value.hash != head { errors := errors + [HeadMismatch]; }
    }
    v := Verification(ChainHead(|lines|, head), errors);
  }

  // ---- The anchored head ----

  /** Two different cores, one in each log, with one hash. */
  ghost predicate Collide(config: Config, a: seq<Line>, b: seq<Line>) {
    exists i, j :: 0 <= i < |a| && 0 <= j < |b| && Clash(config, a[i], b[j])
  }

  ghost predicate Clash(config: Config, x: Line, y: Line) {
    x.Object? && y.Object? && x.core.Some? && y.core.Some? && x.core != y.core &&
    config.hash(x.core.value) == config.hash(y.core.value)
  }

  /** Two logs accepted for one anchored head hold the same records, unless they exhibit a collision. */
  lemma {:induction false} HeadDeterminesLog(config: Config, a: seq<Line>, b: seq<Line>, p: Option<string>,
      q: Option<string>)
    requires Sound(config, a, p) && Sound(config, b, q) && HeadOf(a) == HeadOf(b)
    ensures a == b || Collide(config, a, b)
    decreases |a|
  {
    if a != [] {
      var n := |a| - 1;
      SoundPrefix(config, a, p, n);
      SoundPrefix(config, b, q, n);
      SameLast(config, a, b, p, q);
      assert a == a[..n] + [a[n]] && b == b[..n] + [b[n]];
      hide GENESIS, Sound, HeadHash, Clash;
      if !Clash(config, a[n], b[n]) {
        HeadDeterminesLog(config, a[..n], b[..n], p, q);
        if Collide(config, a[..n], b[..n]) {
          var i, j :| 0 <= i < n && 0 <= j < n && Clash(config, a[..n][i], b[..n][j]);
          assert Clash(config, a[i], b[j]);
        }
      }
    }
  }

  lemma SameLast(config: Config, a: seq<Line>, b: seq<Line>, p: Option<string>, q: Option<string>)
    requires Sound(config, a, p) && Sound(config, b, q) && HeadOf(a) == HeadOf(b) && a != []
    ensures var n := |a| - 1; Clash(config, a[n], b[n]) || (a[n] == b[n] && HeadOf(a[..n]) == HeadOf(b[..n]))
  {
    hide GENESIS, BodyOk, IsDigest;
    var n := |a| - 1;
    SoundHead(config, a, p);
    SoundHead(config, b, q);
    assert Chained(config, a, n) && Chained(config, b, n);
    if n > 0 {
      SoundPrefix(config, a, p, n);
      SoundPrefix(config, b, q, n);
      SoundHead(config, a[..n], p);
      SoundHead(config, b[..n], q);
    }
  }

  // ---- Appending ----

  /** What a caller asks to have logged, with the clock's reading if it is usable. */
  datatype Request = Request(event: string, turn: Option<int>, fields: map<string, Value>, now: Option<string>)

  datatype Refusal = BadRequest | InvalidLog(errors: seq<Error>)

  datatype Receipt = Receipt(sequence: nat, event: string, timestamp: string, hash: string)

  predicate Loggable(config: Config, r: Request) {
    && IsIdentifier(r.event) && r.event in config.schema.specs
    && TurnOk(config.schema.specs[r.event].turn, r.turn)
    && NormalFields(config.schema, r.event, r.fields).Some?
    && r.now.Some?
  }

  function RecordFor(config: Config, campaign: string, component: string, r: Request, lines: seq<Line>): Line
    requires Loggable(config, r)
  {
    var core := Core(EVENT_FORMAT, SCHEMA_VERSION, |lines|, r.now.value, campaign, component, r.turn, r.event,
                     NormalFields(config.schema, r.event, r.fields).value, HeadHash(lines));
    Object(Some(core), config.hash(core), false)
  }

  /** The value as the log keeps it: as given, or a list of ids in order and once each. */
  ghost predicate Kept(given: Value, v: Value) {
    match given
    case Ids(ids) => v.Ids? && Ascending(v.ids) && forall x :: x in v.ids <==> x in ids
    case _ => v == given
  }

  /** The record says what was asked for, at its place in the log. */
  ghost predicate Says(line: Line, campaign: string, component: string, r: Request, lines: seq<Line>) {
    && line.Object? && !line.unknown && line.core.Some?
    && var c := line.core.value;
       && c.format == EVENT_FORMAT && c.version == SCHEMA_VERSION && c.sequence == |lines|
       && r.now == Some(c.timestamp) && c.campaign == campaign && c.component == component
       && c.turn == r.turn && c.event == r.event
       && c.fields.Keys == r.fields.Keys && (forall n :: n in c.fields ==> Kept(r.fields[n], c.fields[n]))
       && (lines == [] ==> c.previous == GENESIS)
       && (lines != [] && lines[|lines| - 1].Object? && IsDigest(lines[|lines| - 1].hash) ==>
             c.previous == lines[|lines| - 1].hash)
  }

  lemma KeptValue(kind: Kind, v: Value)
    requires NormalValue(kind, v).Some?
    ensures Kept(v, NormalValue(kind, v).value)
  {
  }

  lemma RecordSays(config: Config, campaign: string, component: string, r: Request, lines: seq<Line>)
    requires Loggable(config, r)
    ensures var line := RecordFor(config, campaign, component, r, lines);
            Says(line, campaign, component, r, lines) && line.hash == config.hash(line.core.value)
  {
    hide NormalValue, Kept, GENESIS, IsDigest, IsIdentifier;
    var normal := NormalFields(config.schema, r.event, r.fields).value;
    forall n | n in normal ensures n in r.fields && Kept(r.fields[n], normal[n]) {
      KeptValue(config.schema.kinds[n], r.fields[n]);
    }
  }

  /** The clock's readings pass the timestamp check and digests look like digests. */
  ghost predicate Honest(config: Config, r: Request) {
    (r.now.Some? ==> config.timeOk(r.now.value)) && forall c :: IsDigest(config.hash(c))
  }

  lemma AppendedIsSound(config: Config, campaign: string, component: string, r: Request, lines: seq<Line>)
    requires Loggable(config, r) && Honest(config, r) && IsIdentifier(campaign) && IsIdentifier(component)
    requires Sound(config, lines, Some(campaign))
    ensures Sound(config, lines + [RecordFor(config, campaign, component, r, lines)], Some(campaign))
  {
    var line := RecordFor(config, campaign, component, r, lines);
    NormalFieldsAreNormal(config.schema, r.event, r.fields);
    HeadHashIsDigest(lines);
    hide GENESIS, Sound, IsDigest, IsIdentifier, NormalFields, HeadHash;
    OneMoreLine(config, lines, line, Some(campaign));
    if lines != [] { SoundCampaign(config, lines, Some(campaign)); }
  }

  /** What is on the disk: whole lines, and perhaps a last line without its newline. */
  datatype File = File(lines: seq<Line>, unfinished: bool)

  /** The writer of one campaign's log. */
  class ObservabilityLog {
    const config: Config
    const campaign: string
    const component: string
    /** The file, once the first append has created it. */
    var file: Option<File>

    constructor (config: Config, campaign: string, component: string)
      requires IsIdentifier(campaign) && IsIdentifier(component)
      ensures this.config == config && this.campaign == campaign && this.component == component && file == None
    {
      this.config, this.campaign, this.component, file := config, campaign, component, None;
    }

    /** The records in the file; none while there is no file. */
    function Lines(): seq<Line>
      reads this
    {
      if file.Some? then file.value.lines else []
    }

    /** There is a file, and it is sound. */
    ghost predicate Valid()
      reads this
    {
      file.Some? && !file.value.unfinished && Sound(config, file.value.lines, Some(campaign))
    }

    /** Appends one record to a valid log, creating the file if there is none, or leaves everything as it is. */
    method Emit(r: Request) returns (outcome: Result<Receipt, Refusal>)
      requires IsIdentifier(campaign) && IsIdentifier(component) && Honest(config, r)
      modifies this
      ensures outcome.Ok? <==> Loggable(config, r) && (old(file).None? || old(Valid()))
      ensures outcome.Err? ==> file == old(file)
      ensures outcome.Ok? ==>
                && Valid() && Lines() == old(Lines()) + [RecordFor(config, campaign, component, r, old(Lines()))]
                && Says(Lines()[|old(Lines())|], campaign, component, r, old(Lines()))
                && outcome.value.sequence == |old(Lines())| && HeadOf(Lines()) ==
                    ChainHead(|old(Lines())| + 1, outcome.value.hash)
    {
      if !Loggable(config, r) {
        return Err(BadRequest);
      }
      var current := if file.None? then File([], false) else file.value;
      EmptyIsSound(config, Some(campaign));
      var v := VerifyText(config, current.lines, current.unfinished, Some(campaign), None);
      if v.errors != [] {
        return Err(InvalidLog(v.errors));
      }
      var record := RecordFor(config, campaign, component, r, current.lines);
      AppendedIsSound(config, campaign, component, r, current.lines);
      RecordSays(config, campaign, component, r, current.lines);
      NextHead(current.lines, record);
      file := Some(File(current.lines + [record], false));
      outcome := Ok(Receipt(|current.lines|, r.event, r.now.value, record.hash));
    }

    /** The head that may be anchored elsewhere, if there is a file and it is valid. */
    method Head() returns (head: Option<ChainHead>)
      ensures head == if Valid() then Some(HeadOf(Lines())) else None
    {
      if file.None? {
        return None;
      }
      var v := VerifyText(config, file.value.lines, file.value.unfinished, Some(campaign), None);
      head := if v.errors == [] then Some(v.head) else None;
    }
  }

  // ---- Runs ----

  function Emitted(config: Config, campaign: string, component: string, r: Request, lines: seq<Line>): seq<Line> {
    if Loggable(config, r) then lines + [RecordFor(config, campaign, component, r, lines)] else lines
  }

  function EmitAll(config: Config, campaign: string, component: string, requests: seq<Request>): seq<Line> {
    if requests == [] then []
    else
      var n := |requests| - 1;
      Emitted(config, campaign, component, requests[n], EmitAll(config, campaign, component, requests[..n]))
  }

  /**
    Every run of appends from an empty log stays sound, and a head anchored at
    any moment still vouches for the records there were then.
   */
  lemma {:induction false} EveryRunStaysSound(config: Config, campaign: string, component: string,
      requests: seq<Request>, k: nat)
    requires IsIdentifier(campaign) && IsIdentifier(component) && k <= |requests|
    requires forall r :: r in requests ==> Honest(config, r)
    ensures Sound(config, EmitAll(config, campaign, component, requests), Some(campaign))
    ensures EmitAll(config, campaign, component, requests[..k]) <= EmitAll(config, campaign, component, requests)
    decreases |requests|
  {
    hide GENESIS, Sound, Honest, RecordFor, Loggable, IsIdentifier;
    if requests == [] {
      EmptyIsSound(config, Some(campaign));
      assert requests[..k] == [];
    } else {
      var n := |requests| - 1;
      var before := EmitAll(config, campaign, component, requests[..n]);
      assert requests[n] in requests && forall r :: r in requests[..n] ==> r in requests;
      if k <= n {
        EveryRunStaysSound(config, campaign, component, requests[..n], k);
        assert requests[..n][..k] == requests[..k];
      } else {
        EveryRunStaysSound(config, campaign, component, requests[..n], n);
        assert requests[..k] == requests;
      }
      if Loggable(config, requests[n]) {
        AppendedIsSound(config, campaign, component, requests[n], before);
      }
    }
  }
}
