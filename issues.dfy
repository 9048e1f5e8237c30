/**
 * Issues and plan estimates of `plan_b/issue.py`: confidence levels, effort parsing, the
 * `#plan` comment parser and the zeroing of remaining effort for closed issues.
 */
module Issues {
  import opened Wrappers
  import opened Text
  import opened Teams

  datatype ConfidenceLevel = High | Medium | Low {
    /** The enum value, used as a multiplier in the release sheet. */
    function Value(): (v: real)
      ensures 1.0 <= v <= 2.0
    {
      match this
      case High => 1.0
      case Medium => 1.5
      case Low => 2.0
    }
  }

  /** A plan estimate: two confidence levels and five efforts in seconds; None when not given. */
  datatype WorkEstimate = WorkEstimate(
    reqsLevel: Option<ConfidenceLevel>,
    designLevel: Option<ConfidenceLevel>,
    archDesign: Option<int>,
    perfDesign: Option<int>,
    implementation: Option<int>,
    documentation: Option<int>,
    qaEffort: Option<int>)

  /** `WorkEstimate()`: nothing specified. */
  const NoEstimate := WorkEstimate(None, None, None, None, None, None, None)

  const SecondsPerHour: int := 60 * 60
  const SecondsPerDay: int := 8 * SecondsPerHour
  const SecondsPerWeek: int := 5 * SecondsPerDay

  /** `seconds_to_man_weeks`: a man-week is five eight-hour days. */
  function SecondsToManWeeks(seconds: int): real {
    seconds as real / SecondsPerWeek as real
  }

  /** The texts `_parse_confidence_level` accepts for each level. */
  function LevelAliases(l: ConfidenceLevel): set<string> {
    match l
    case High => {"hi", "high"}
    case Medium => {"med", "medium"}
    case Low => {"low", "lo"}
  }

  /** `_parse_confidence_level`: exactly the aliases of a level name it; anything else is an error. */
  function ParseConfidenceLevel(level: string): (r: Result<ConfidenceLevel>)
    ensures forall l :: r == Ok(l) <==> level in LevelAliases(l)
    ensures r.Err? ==> r.error == InvalidConfidenceLevel(level)
  {
    if level in ["hi", "high"] then Ok(High)
    else if level in ["med", "medium"] then Ok(Medium)
    else if level in ["low", "lo"] then Ok(Low)
    else Err(InvalidConfidenceLevel(level))
  }

  /** Seconds per unit for the unit letters `_parse_estimation` accepts. */
  function UnitSeconds(unit: char): int
    requires unit in "hdw"
  {
    if unit == 'h' then SecondsPerHour else if unit == 'd' then SecondsPerDay else SecondsPerWeek
  }

  /** `int(amount * <seconds per unit>)`. */
  function Seconds(amount: real, unit: char): int
    requires unit in "hdw"
  {
    Truncate(amount * UnitSeconds(unit) as real)
  }

  /**
   * `_parse_estimation`: a decimal amount followed by a unit letter, converted to whole seconds
   * by truncation.
   */
  function ParseEstimation(value: string): (r: Result<int>)
    ensures value == [] ==> r == Err(EmptyEstimate)
    ensures value != [] && value[|value| - 1] !in "hdw" ==> r == Err(MissingUnitSpec(value))
    ensures r.Ok? <==> value != [] && value[|value| - 1] in "hdw" && ParseDecimal(value[..|value| - 1]).Some?
    ensures r.Ok? ==> r.value == Seconds(ParseDecimal(value[..|value| - 1]).value, value[|value| - 1])
  {
    if value == [] then Err(EmptyEstimate)
    else
      var unit := value[|value| - 1];
      if unit !in "hdw" then Err(MissingUnitSpec(value))
      else
        var amount := ParseDecimal(value[..|value| - 1]);
        if amount.None? then Err(NotANumber(value[..|value| - 1]))
        else Ok(Seconds(amount.value, unit))
  }

  /** The seconds are the amount in the unit's seconds, less than one second off. */
  lemma SecondsNear(amount: real, unit: char)
    requires unit in "hdw"
    ensures Seconds(amount, unit) as real - 1.0 < amount * UnitSeconds(unit) as real < Seconds(amount, unit) as real + 1.0
  {
    TruncateNear(amount * UnitSeconds(unit) as real);
  }

  lemma WholeSeconds(n: nat, unit: char)
    requires unit in "hdw"
    ensures Seconds(n as real, unit) == n * UnitSeconds(unit)
  {
    assert n as real * UnitSeconds(unit) as real == (n * UnitSeconds(unit)) as real;
  }

  lemma DigitsParseAsDecimal(n: nat)
    ensures ParseDecimal(NatToString(n)) == Some(n as real)
  {
    var s := NatToString(n);
    assert IsDigit(s[0]) && IsDigit(s[|s| - 1]);
    StripUnpadded(s);
    assert '.' !in s by {
      forall i | 0 <= i < |s| ensures s[i] != '.' {
        assert IsDigit(s[i]);
      }
    }
    DigitsRoundTrip(n);
  }

  /** A whole amount with a unit parses to that many units' seconds. */
  lemma ParseWholeEstimation(n: nat, unit: char)
    requires unit in "hdw"
    ensures ParseEstimation(NatToString(n) + [unit]) == Ok(n * UnitSeconds(unit))
  {
    var v := NatToString(n) + [unit];
    assert v[..|v| - 1] == NatToString(n);
    DigitsParseAsDecimal(n);
    WholeSeconds(n, unit);
  }

  /** Round trip: `n` weeks written as `<n>w` come back as `n` man-weeks. */
  lemma WeeksRoundTrip(n: nat)
    ensures ParseEstimation(NatToString(n) + "w").Ok?
    ensures SecondsToManWeeks(ParseEstimation(NatToString(n) + "w").value) == n as real
  {
    ParseWholeEstimation(n, 'w');
  }

  /** A literal `<whole>.<frac>` parses to the whole part plus the fraction's digits over their power of ten. */
  lemma DecimalParts(whole: string, frac: string)
    requires IsDigits(whole) && IsDigits(frac)
    ensures ParseDecimal(whole + ['.'] + frac) == Some(DecimalValue(DigitsValue(whole), DigitsValue(frac), |frac|))
  {
    var s := whole + ['.'] + frac;
    assert s[0] == whole[0] && s[|s| - 1] == frac[|frac| - 1];
    assert IsDigit(s[0]) && IsDigit(s[|s| - 1]);
    StripUnpadded(s);
    assert s[0] != '-' && s[0] != '+';
    UnsignedDecimalParts(whole, frac);
  }

  lemma UnsignedDecimalParts(whole: string, frac: string)
    requires IsDigits(whole) && IsDigits(frac)
    ensures ParseUnsignedDecimal(whole + ['.'] + frac) == Some(DecimalValue(DigitsValue(whole), DigitsValue(frac), |frac|))
  {
    var s := whole + ['.'] + frac;
    assert s[|whole|] == '.';
    DigitsHaveNoDot(whole);
    DigitsHaveNoDot(frac);
    SplitOnce(whole, frac, '.');
  }

  lemma DigitsHaveNoDot(s: string)
    requires IsDigits(s)
    ensures '.' !in s
  {
    forall i | 0 <= i < |s| ensures s[i] != '.' {
      assert IsDigit(s[i]);
    }
  }

  /** An amount with a fractional part and a unit parses to that amount's seconds, truncated. */
  lemma ParseFractionalEstimation(whole: string, frac: string, unit: char)
    requires IsDigits(whole) && IsDigits(frac) && unit in "hdw"
    ensures ParseEstimation(whole + ['.'] + frac + [unit])
         == Ok(Seconds(DecimalValue(DigitsValue(whole), DigitsValue(frac), |frac|), unit))
  {
    var v := whole + ['.'] + frac + [unit];
    assert v[..|v| - 1] == whole + ['.'] + frac;
    DecimalParts(whole, frac);
  }

  /** The half-week documentation estimate of the parsing tests. */
  lemma HalfWeek()
    ensures ParseEstimation("0.5w") == Ok(72000)
  {
    var v := "0.5w";
    assert v[|v| - 1] == 'w';
    assert v[..|v| - 1] == "0" + ['.'] + "5";
    DecimalParts("0", "5");
    HalfAmount();
    HalfWeekSeconds();
  }

  lemma HalfAmount()
    ensures DecimalValue(DigitsValue("0"), DigitsValue("5"), |"5"|) == 0.5
  {
    assert DigitsValue("0") == 0 && DigitsValue("5") == 5 && Pow10(1) == 10;
  }

  lemma HalfWeekSeconds()
    ensures Seconds(0.5, 'w') == 72000
  {
    assert UnitSeconds('w') == 144000;
    assert 0.5 * 144000.0 == 72000 as real;
    TruncateWhole(72000);
  }

  // ---------------------------------------------------------------------------
  // Estimate fields and `_set_property`

  datatype Field = ReqsLevel | DesignLevel | ArchDesign | PerfDesign | Implementation | Documentation | QaEffort

  /** The order of the `_set_property` chain. */
  const FieldOrder: seq<Field> := [ReqsLevel, DesignLevel, ArchDesign, PerfDesign, Implementation, Documentation, QaEffort]

  /** The attribute name `_set_property` reports. */
  function FieldName(f: Field): string {
    match f
    case ReqsLevel => "reqs_level"
    case DesignLevel => "design_level"
    case ArchDesign => "arch_design"
    case PerfDesign => "perf_design"
    case Implementation => "implementation"
    case Documentation => "documentation"
    case QaEffort => "qa_effort"
  }

  /** The clause keys naming each field. */
  function Tokens(f: Field): seq<string> {
    match f
    case ReqsLevel => ["reqs", "requirements", "requirements confidence", "reqs confidence", "reqs level"]
    case DesignLevel => ["design", "design confidence", "design level"]
    case ArchDesign => ["arch", "architecture", "arch design", "architecture design"]
    case PerfDesign => ["perf", "perf engineering", "performance engineering", "performance"]
    case Implementation => ["impl", "implementation", "implementing"]
    case Documentation => ["doc", "documentation", "documenting"]
    case QaEffort => ["qa", "qa effort", "qa acceptance"]
  }

  const TeamTokens: seq<string> := ["team"]

  /** Every recognised clause prefix, in the order they are tried. */
  const PossibleTokens: seq<string> :=
    Tokens(ReqsLevel) + Tokens(DesignLevel) + Tokens(ArchDesign) + Tokens(PerfDesign)
    + Tokens(Implementation) + Tokens(Documentation) + TeamTokens + Tokens(QaEffort)

  datatype FieldValue = LevelValue(level: ConfidenceLevel) | SecondsValue(seconds: int)

  predicate IsLevelField(f: Field) {
    f == ReqsLevel || f == DesignLevel
  }

  predicate Fits(f: Field, v: FieldValue) {
    v.LevelValue? <==> IsLevelField(f)
  }

  function Get(e: WorkEstimate, f: Field): (v: Option<FieldValue>)
    ensures v.Some? ==> Fits(f, v.value)
  {
    match f
    case ReqsLevel => if e.reqsLevel.Some? then Some(LevelValue(e.reqsLevel.value)) else None
    case DesignLevel => if e.designLevel.Some? then Some(LevelValue(e.designLevel.value)) else None
    case ArchDesign => if e.archDesign.Some? then Some(SecondsValue(e.archDesign.value)) else None
    case PerfDesign => if e.perfDesign.Some? then Some(SecondsValue(e.perfDesign.value)) else None
    case Implementation => if e.implementation.Some? then Some(SecondsValue(e.implementation.value)) else None
    case Documentation => if e.documentation.Some? then Some(SecondsValue(e.documentation.value)) else None
    case QaEffort => if e.qaEffort.Some? then Some(SecondsValue(e.qaEffort.value)) else None
  }

  /** `setattr(estimate, property_name, value)`: sets one field, keeps the others. */
  function Assign(e: WorkEstimate, f: Field, v: FieldValue): (r: WorkEstimate)
    requires Fits(f, v)
    ensures Get(r, f) == Some(v)
    ensures forall g :: g != f ==> Get(r, g) == Get(e, g)
  {
    match f
    case ReqsLevel => e.(reqsLevel := Some(v.level))
    case DesignLevel => e.(designLevel := Some(v.level))
    case ArchDesign => e.(archDesign := Some(v.seconds))
    case PerfDesign => e.(perfDesign := Some(v.seconds))
    case Implementation => e.(implementation := Some(v.seconds))
    case Documentation => e.(documentation := Some(v.seconds))
    case QaEffort => e.(qaEffort := Some(v.seconds))
  }

  /** The parser `_set_property` is given for a field. */
  function ParseFieldValue(f: Field, raw: string): (r: Result<FieldValue>)
    ensures r.Ok? ==> Fits(f, r.value)
  {
    if IsLevelField(f) then
      var l :- ParseConfidenceLevel(raw);
      Ok(LevelValue(l))
    else
      var s :- ParseEstimation(raw);
      Ok(SecondsValue(s))
  }

  /**
   * `_set_property`: when `key` names field `f`, sets it from `raw` (an error if it is already
   * set or `raw` does not parse) and answers true; otherwise changes nothing and answers false.
   */
  function SetProperty(e: WorkEstimate, f: Field, key: string, raw: string): (r: Result<(WorkEstimate, bool)>)
    ensures key !in Tokens(f) ==> r == Ok((e, false))
    ensures key in Tokens(f) && Get(e, f).Some? ==> r == Err(AlreadySpecified(FieldName(f)))
    ensures key in Tokens(f) && Get(e, f).None? ==>
      (r.Ok? <==> ParseFieldValue(f, raw).Ok?)
      && (r.Ok? ==> r.value.1 && Get(r.value.0, f) == Some(ParseFieldValue(f, raw).value)
                    && forall g :: g != f ==> Get(r.value.0, g) == Get(e, g))
  {
    if key in Tokens(f) then
      if Get(e, f).Some? then Err(AlreadySpecified(FieldName(f)))
      else
        var v :- ParseFieldValue(f, raw);
        Ok((Assign(e, f, v), true))
    else Ok((e, false))
  }

  /** The `or`-chain of `_set_property` calls over `fields`: stops at the first that answers true. */
  function SetChain(e: WorkEstimate, key: string, raw: string, fields: seq<Field>): Result<WorkEstimate> {
    if fields == [] then Ok(e)
    else
      var step :- SetProperty(e, fields[0], key, raw);
      if step.1 then Ok(step.0) else SetChain(step.0, key, raw, fields[1..])
  }

  /** The field a clause key names, if any. */
  function FieldOf(key: string): (r: Option<Field>)
    ensures r.Some? ==> key in Tokens(r.value)
    ensures r.None? ==> forall f :: key !in Tokens(f)
  {
    if key in Tokens(ReqsLevel) then Some(ReqsLevel)
    else if key in Tokens(DesignLevel) then Some(DesignLevel)
    else if key in Tokens(ArchDesign) then Some(ArchDesign)
    else if key in Tokens(PerfDesign) then Some(PerfDesign)
    else if key in Tokens(Implementation) then Some(Implementation)
    else if key in Tokens(Documentation) then Some(Documentation)
    else if key in Tokens(QaEffort) then Some(QaEffort)
    else None
  }

  /** No key names two fields, and `team` names none. */
  lemma TokensDisjoint(key: string, f: Field)
    requires key in Tokens(f)
    ensures FieldOf(key) == Some(f)
    ensures key !in TeamTokens
  {
  }

  /** What the chain does to one clause: act on the one field the key names, if any. */
  function SetField(e: WorkEstimate, key: string, raw: string): (r: Result<WorkEstimate>) {
    match FieldOf(key)
    case None => Ok(e)
    case Some(f) =>
      if Get(e, f).Some? then Err(AlreadySpecified(FieldName(f)))
      else
        var v :- ParseFieldValue(f, raw);
        Ok(Assign(e, f, v))
  }

  lemma {:induction false} SetChainTail(e: WorkEstimate, key: string, raw: string, fields: seq<Field>)
    requires forall f :: f in fields ==> key !in Tokens(f)
    ensures SetChain(e, key, raw, fields) == Ok(e)
  {
    if fields != [] {
      SetChainTail(e, key, raw, fields[1..]);
    }
  }

  /** The seven-call chain is exactly "set the field the key names". */
  lemma SetChainIsSetField(e: WorkEstimate, key: string, raw: string)
    ensures SetChain(e, key, raw, FieldOrder) == SetField(e, key, raw)
  {
    var fo := FieldOrder;
    match FieldOf(key)
    case None =>
      SetChainTail(e, key, raw, fo);
    case Some(f) =>
      TokensDisjoint(key, f);
      var i := match f
        case ReqsLevel => 0 case DesignLevel => 1 case ArchDesign => 2 case PerfDesign => 3
        case Implementation => 4 case Documentation => 5 case QaEffort => 6;
      forall j | 0 <= j < 7 && j != i ensures key !in Tokens(fo[j]) {
        if key in Tokens(fo[j]) {
          TokensDisjoint(key, fo[j]);
        }
      }
      SetChainPrefix(e, key, raw, fo, i);
  }

  lemma {:induction false} SetChainPrefix(e: WorkEstimate, key: string, raw: string, fields: seq<Field>, i: nat)
    requires i < |fields| && key in Tokens(fields[i])
    requires forall j :: 0 <= j < i ==> key !in Tokens(fields[j])
    ensures SetChain(e, key, raw, fields) == SetChain(e, key, raw, fields[i..])
    ensures SetChain(e, key, raw, fields[i..]) == match SetProperty(e, fields[i], key, raw)
      case Err(err) => Err(err)
      case Ok(step) => Ok(step.0)
  {
    if i > 0 {
      SetChainPrefix(e, key, raw, fields[1..], i - 1);
      assert fields[1..][i - 1..] == fields[i..];
    }
  }

  // ---------------------------------------------------------------------------
  // parse_work_estimate_text

  /** An insertion-ordered dictionary. */
  type Assoc = seq<(string, string)>

  predicate UniqueKeys(kv: Assoc) {
    forall i, j :: 0 <= i < j < |kv| ==> kv[i].0 != kv[j].0
  }

  function Lookup(kv: Assoc, k: string): (r: Option<string>)
    ensures r.Some? <==> exists i :: 0 <= i < |kv| && kv[i].0 == k
  {
    if kv == [] then None
    else if kv[|kv| - 1].0 == k then Some(kv[|kv| - 1].1)
    else Lookup(kv[..|kv| - 1], k)
  }

  /** `d[k] = v` on a dict: a new key goes last, an existing key keeps its place and takes `v`. */
  function Put(kv: Assoc, k: string, v: string): (r: Assoc)
    requires UniqueKeys(kv)
    ensures UniqueKeys(r)
    ensures Lookup(r, k) == Some(v)
    ensures forall k' :: k' != k ==> Lookup(r, k') == Lookup(kv, k')
    ensures |r| == if Lookup(kv, k).Some? then |kv| else |kv| + 1
  {
    if kv == [] then [(k, v)]
    else if kv[|kv| - 1].0 == k then kv[..|kv| - 1] + [(k, v)]
    else
      var front := Put(kv[..|kv| - 1], k, v);
      LookupUnique(kv[..|kv| - 1], kv[|kv| - 1].0);
      front + [kv[|kv| - 1]]
  }

  lemma LookupUnique(kv: Assoc, k: string)
    requires Lookup(kv, k).None?
    ensures forall i :: 0 <= i < |kv| ==> kv[i].0 != k
  {
  }

  /** The non-empty stripped pieces of the comment body between `,` (after `;` and newlines become `,`). */
  function Clauses(t: string): (r: seq<string>)
    ensures forall i :: 0 <= i < |r| ==> Trimmed(r[i])
  {
    var body := ReplaceChars(Strip(RemoveAll(t, "#plan")), {';', '\n'}, ',');
    NonEmptyStripped(Split(body, ','))
  }

  function NonEmptyStripped(pieces: seq<string>): (r: seq<string>)
    ensures forall i :: 0 <= i < |r| ==> Trimmed(r[i])
  {
    if pieces == [] then []
    else
      var t := Strip(pieces[0]);
      if t == [] then NonEmptyStripped(pieces[1..])
      else [t] + NonEmptyStripped(pieces[1..])
  }

  predicate StartsWithAny(l: string, prefixes: seq<string>) {
    exists j :: 0 <= j < |prefixes| && StartsWith(l, prefixes[j])
  }

  /** The clauses that begin (case-sensitively) with a recognised token, in order. */
  function KeptClauses(lines: seq<string>): (r: seq<string>)
    ensures |r| <= |lines|
  {
    if lines == [] then []
    else
      var front := KeptClauses(lines[..|lines| - 1]);
      if StartsWithAny(lines[|lines| - 1], PossibleTokens) then front + [lines[|lines| - 1]] else front
  }

  /** A clause is kept exactly when it is one of the clauses and starts with a recognised token. */
  lemma {:induction false} KeptClausesExactly(lines: seq<string>, x: string)
    ensures x in KeptClauses(lines) <==> x in lines && StartsWithAny(x, PossibleTokens)
  {
    if lines != [] {
      var front := lines[..|lines| - 1];
      KeptClausesExactly(front, x);
      assert lines == front + [lines[|lines| - 1]];
    }
  }

  /** Key and value of a clause: both halves of its one `:` split, trimmed and lower-cased. */
  function KeyOf(clause: string): string {
    Lower(Strip(Split(clause, ':')[0]))
  }

  function ValueOf(clause: string): string {
    var parts := Split(clause, ':');
    if |parts| >= 2 then Lower(Strip(parts[1])) else []
  }

  /**
   * The `kv` dict comprehension over `acc`-ordered clauses: clauses without `:` are skipped, one
   * with more than one `:` fails to unpack, and a repeated key keeps its place and takes the
   * later value.
   */
  function KeyValuesFrom(tokens: seq<string>, acc: Assoc): (r: Result<Assoc>)
    requires UniqueKeys(acc)
    ensures r.Ok? ==> UniqueKeys(r.value)
  {
    if tokens == [] then Ok(acc)
    else
      var x := tokens[0];
      if ':' !in x then KeyValuesFrom(tokens[1..], acc)
      else if |Split(x, ':')| != 2 then Err(UnpackClause(x))
      else KeyValuesFrom(tokens[1..], Put(acc, KeyOf(x), ValueOf(x)))
  }

  function KeyValues(tokens: seq<string>): (r: Result<Assoc>)
    ensures r.Ok? ==> UniqueKeys(r.value)
  {
    KeyValuesFrom(tokens, [])
  }

  /** The value the last clause with key `k` gives, over `acc` then `tokens`: a reference for the dict. */
  function LastValue(tokens: seq<string>, k: string, acc: Option<string>): Option<string> {
    if tokens == [] then acc
    else
      var x := tokens[0];
      LastValue(tokens[1..], k, if ':' in x && KeyOf(x) == k then Some(ValueOf(x)) else acc)
  }

  /** The dict holds, for every key, the value of the last clause with that key. */
  lemma {:induction false} KeyValuesLastWins(tokens: seq<string>, acc: Assoc, k: string)
    requires UniqueKeys(acc) && KeyValuesFrom(tokens, acc).Ok?
    ensures Lookup(KeyValuesFrom(tokens, acc).value, k) == LastValue(tokens, k, Lookup(acc, k))
  {
    if tokens != [] {
      var x := tokens[0];
      if ':' !in x {
        KeyValuesLastWins(tokens[1..], acc, k);
      } else {
        KeyValuesLastWins(tokens[1..], Put(acc, KeyOf(x), ValueOf(x)), k);
      }
    }
  }

  /** `for team_name in team_by_name.keys(): if v in team_name.lower(): matching = team_name`. */
  function LastTeamContaining(names: seq<string>, v: string, current: Option<string>): (r: Option<string>)
    ensures (forall i :: 0 <= i < |names| ==> !Contains(Lower(names[i]), v)) ==> r == current
    ensures (exists i :: 0 <= i < |names| && Contains(Lower(names[i]), v)) ==>
      exists i :: (0 <= i < |names| && r == Some(names[i]) && Contains(Lower(names[i]), v)
        && forall j :: i < j < |names| ==> !Contains(Lower(names[j]), v))
  {
    if names == [] then current
    else if Contains(Lower(names[|names| - 1]), v) then Some(names[|names| - 1])
    else LastTeamContaining(names[..|names| - 1], v, current)
  }

  /** One iteration of the `kv` loop: the `_set_property` chain, then the team clause. */
  function ApplyClause(e: WorkEstimate, team: Option<string>, k: string, v: string, names: seq<string>): Result<(WorkEstimate, Option<string>)> {
    var e' :- SetChain(e, k, v, FieldOrder);
    Ok((e', if k in TeamTokens then LastTeamContaining(names, v, team) else team))
  }

  /** The whole `kv` loop, from an empty estimate and no team. */
  function ApplyClauses(kv: Assoc, names: seq<string>): Result<(WorkEstimate, Option<string>)> {
    if kv == [] then Ok((NoEstimate, None))
    else
      var acc :- ApplyClauses(kv[..|kv| - 1], names);
      ApplyClause(acc.0, acc.1, kv[|kv| - 1].0, kv[|kv| - 1].1, names)
  }

  function TeamNames(teams: seq<Team>): (names: seq<string>)
    ensures |names| == |teams| && forall i :: 0 <= i < |teams| ==> names[i] == teams[i].name
  {
    seq(|teams|, i requires 0 <= i < |teams| => teams[i].name)
  }

  /** The fallback attribution by the comment's author. */
  function AuthorTeam(author: string, teams: seq<Team>): Option<string> {
    match MatchTeamByWorkerName(author, teams)
    case None => None
    case Some(t) => Some(t.name)
  }

  /**
   * `parse_work_estimate_text` over the teams of `team_by_name`, in its key order (each key is
   * its team's name): (None, None) without the `#plan` marker, otherwise the estimate and the
   * team named by a `team` clause or, failing that, the author's team.
   */
  function ParseWorkEstimate(text: string, author: string, teams: seq<Team>): Result<(Option<WorkEstimate>, Option<string>)> {
    var t := Strip(text);
    if !StartsWith(t, "#plan") then Ok((None, None))
    else
      var kv := KeyValues(KeptClauses(Clauses(t)));
      if kv.Err? then Err(kv.error)
      else
        var applied := ApplyClauses(kv.value, TeamNames(teams));
        if applied.Err? then Err(applied.error)
        else Ok((Some(applied.value.0), if applied.value.1.Some? then applied.value.1 else AuthorTeam(author, teams)))
  }

  /** A failing clause ends the loop: the whole loop fails as the prefix up to that clause does. */
  lemma {:induction false} ClauseErrorStops(kv: Assoc, names: seq<string>, n: nat)
    requires n <= |kv| && ApplyClauses(kv[..n], names).Err?
    ensures ApplyClauses(kv, names) == ApplyClauses(kv[..n], names)
  {
    if n < |kv| {
      assert kv[..|kv| - 1][..n] == kv[..n];
      ClauseErrorStops(kv[..|kv| - 1], names, n);
    } else {
      assert kv[..n] == kv;
    }
  }

  /** The comment parser as the Python code writes it: a token-filter loop, then a loop over the clauses. */
  method ParseWorkEstimateText(text: string, author: string, teams: seq<Team>) returns (r: Result<(Option<WorkEstimate>, Option<string>)>)
    ensures r == ParseWorkEstimate(text, author, teams)
  {
    var t := Strip(text);
    if !StartsWith(t, "#plan") {
      return Ok((None, None));
    }
    var tokens := FilterClauses(Clauses(t));
    var kvResult := KeyValues(tokens);
    if kvResult.Err? {
      return Err(kvResult.error);
    }
    var kv := kvResult.value;
    var applied := ApplyKeyValues(kv, TeamNames(teams));
    if applied.Err? {
      return Err(applied.error);
    }
    var result := applied.value.0;
    var matchingTeam := applied.value.1;
    ghost var spec := ParseWorkEstimate(text, author, teams);
    assert spec == Ok((Some(result), if matchingTeam.Some? then matchingTeam else AuthorTeam(author, teams)));
    if matchingTeam.None? {
      matchingTeam := AuthorTeam(author, teams);
    }
    return Ok((Some(result), matchingTeam));
  }

  /** The loop over the `kv` dict, from an empty estimate and no team. */
  method ApplyKeyValues(kv: Assoc, names: seq<string>) returns (r: Result<(WorkEstimate, Option<string>)>)
    ensures r == ApplyClauses(kv, names)
  {
    var matchingTeam: Option<string> := None;
    var result := NoEstimate;
    for i := 0 to |kv|
      invariant ApplyClauses(kv[..i], names) == Ok((result, matchingTeam))
    {
      var (k, v) := kv[i];
      assert kv[..i + 1][..i] == kv[..i];
      var step := ApplyClauseStep(result, matchingTeam, k, v, names);
      if step.Err? {
        ClauseErrorStops(kv, names, i + 1);
        return Err(step.error);
      }
      result, matchingTeam := step.value.0, step.value.1;
    }
    assert kv[..|kv|] == kv;
    return Ok((result, matchingTeam));
  }

  /** The token filter: keeps, in order, each clause that starts with one of the possible tokens. */
  method FilterClauses(lines: seq<string>) returns (tokens: seq<string>)
    ensures tokens == KeptClauses(lines)
  {
    tokens := [];
    for i := 0 to |lines|
      invariant tokens == KeptClauses(lines[..i])
    {
      KeptClausesStep(lines, i);
      var keep := StartsWithSome(lines[i], PossibleTokens);
      if keep {
        tokens := tokens + [lines[i]];
      }
    }
    assert lines[..|lines|] == lines;
  }

  /** The inner `for start in POSSIBLE_TOKENS` scan, which stops at the first token the clause starts with. */
  method StartsWithSome(l: string, prefixes: seq<string>) returns (found: bool)
    ensures found <==> StartsWithAny(l, prefixes)
  {
    found := false;
    for j := 0 to |prefixes|
      invariant !found
      invariant forall j' :: 0 <= j' < j ==> !StartsWith(l, prefixes[j'])
    {
      if StartsWith(l, prefixes[j]) {
        found := true;
        break;
      }
    }
  }

  lemma KeptClausesStep(lines: seq<string>, i: nat)
    requires i < |lines|
    ensures KeptClauses(lines[..i + 1])
         == KeptClauses(lines[..i]) + (if StartsWithAny(lines[i], PossibleTokens) then [lines[i]] else [])
  {
    assert lines[..i + 1][..i] == lines[..i];
  }

  /** The body of the `kv` loop: the `or`-chain of `_set_property` calls, then the team scan. */
  method ApplyClauseStep(e: WorkEstimate, team: Option<string>, k: string, v: string, names: seq<string>)
    returns (r: Result<(WorkEstimate, Option<string>)>)
    ensures r == ApplyClause(e, team, k, v, names)
  {
    var est := e;
    var handled := false;
    var j := 0;
    while j < |FieldOrder| && !handled
      invariant 0 <= j <= |FieldOrder|
      invariant !handled ==> SetChain(est, k, v, FieldOrder[j..]) == SetChain(e, k, v, FieldOrder)
      invariant handled ==> SetChain(e, k, v, FieldOrder) == Ok(est)
    {
      var step := SetProperty(est, FieldOrder[j], k, v);
      if step.Err? {
        return Err(step.error);
      }
      est, handled := step.value.0, step.value.1;
      j := j + 1;
    }
    var matching := team;
    if k in TeamTokens {
      for i := 0 to |names|
        invariant matching == LastTeamContaining(names[..i], v, team)
      {
        assert names[..i + 1][..i] == names[..i];
        if Contains(Lower(names[i]), v) {
          matching := Some(names[i]);
        }
      }
      assert names[..|names|] == names;
    }
    return Ok((est, matching));
  }

  // ---------------------------------------------------------------------------
  // Properties of the parser

  /** Text that does not begin with `#plan` once trimmed carries no estimate and no team. */
  lemma NoMarkerNoEstimate(text: string, author: string, teams: seq<Team>)
    requires !StartsWith(Strip(text), "#plan")
    ensures ParseWorkEstimate(text, author, teams) == Ok((None, None))
  {
  }

  /** A space after the `#` (the parsing tests' ` # plan `) breaks the marker: no estimate and no team. */
  lemma SpacedMarker(text: string, author: string, teams: seq<Team>)
    requires |Strip(text)| >= 2 && Strip(text)[0] == '#' && Strip(text)[1] == ' '
    ensures ParseWorkEstimate(text, author, teams) == Ok((None, None))
  {
    SpaceBreaksMarker(Strip(text));
    NoMarkerNoEstimate(text, author, teams);
  }

  lemma SpaceBreaksMarker(t: string)
    requires |t| >= 2 && t[0] == '#' && t[1] == ' '
    ensures !StartsWith(t, "#plan")
  {
    if |t| >= 5 {
      assert t[..5][1] == ' ' != "#plan"[1];
    }
  }

  /** A bare `#plan`, whatever whitespace surrounds it, gives an empty estimate and the author's team. */
  lemma BareMarker(text: string, author: string, teams: seq<Team>)
    requires Strip(text) == "#plan"
    ensures ParseWorkEstimate(text, author, teams) == Ok((Some(NoEstimate), AuthorTeam(author, teams)))
  {
    assert StartsWith("#plan", "#plan");
    assert "#plan"[5..] == [];
    assert RemoveAll("#plan", "#plan") == [];
    assert Strip([]) == [];
    assert Split([], ',') == [[]];
    assert Clauses("#plan") == [];
  }

  /**
   * Each field is set at most once: when the clause loop succeeds, no two clauses name the same
   * field (through the same or different aliases).
   */
  lemma {:induction false} FieldsSetOnce(kv: Assoc, names: seq<Team>)
    requires ApplyClauses(kv, TeamNames(names)).Ok?
    ensures forall i, j :: 0 <= i < j < |kv| && FieldOf(kv[i].0).Some? ==> FieldOf(kv[i].0) != FieldOf(kv[j].0)
    ensures forall f :: Get(ApplyClauses(kv, TeamNames(names)).value.0, f).Some? <==>
      exists i :: 0 <= i < |kv| && FieldOf(kv[i].0) == Some(f)
  {
    FieldsFromClauses(kv, TeamNames(names));
  }

  /** No two clauses name the same field. */
  predicate FieldsOnce(kv: Assoc) {
    forall i, j :: 0 <= i < j < |kv| && FieldOf(kv[i].0).Some? ==> FieldOf(kv[i].0) != FieldOf(kv[j].0)
  }

  /** The fields set in `e` are exactly those some clause names. */
  predicate FieldsSet(kv: Assoc, e: WorkEstimate) {
    forall f :: Get(e, f).Some? <==> exists i :: 0 <= i < |kv| && FieldOf(kv[i].0) == Some(f)
  }

  /** Each clause naming a field holds a valid value and `e` holds that value. */
  predicate FieldsValues(kv: Assoc, e: WorkEstimate) {
    forall i :: 0 <= i < |kv| && FieldOf(kv[i].0).Some? ==>
      ParseFieldValue(FieldOf(kv[i].0).value, kv[i].1).Ok?
      && Get(e, FieldOf(kv[i].0).value) == Some(ParseFieldValue(FieldOf(kv[i].0).value, kv[i].1).value)
  }

  /** When the clause loop succeeds, every field is named once at most and holds its clause's value. */
  lemma {:induction false} FieldsFromClauses(kv: Assoc, names: seq<string>)
    requires ApplyClauses(kv, names).Ok?
    ensures FieldsOnce(kv)
    ensures FieldsSet(kv, ApplyClauses(kv, names).value.0)
    ensures FieldsValues(kv, ApplyClauses(kv, names).value.0)
  {
    if kv != [] {
      var last := |kv| - 1;
      var front := kv[..last];
      var k, v := kv[last].0, kv[last].1;
      assert kv == front + [(k, v)];
      assert ApplyClauses(front, names).Ok?;
      FieldsFromClauses(front, names);
      var e0 := ApplyClauses(front, names).value.0;
      SetChainIsSetField(e0, k, v);
      var e := ApplyClauses(kv, names).value.0;
      assert SetField(e0, k, v) == Ok(e);
      OnceStep(front, k, v, e0);
      SetStep(front, k, v, e0);
      ValuesStep(front, k, v, e0);
    }
  }

  lemma OnceStep(front: Assoc, k: string, v: string, e0: WorkEstimate)
    requires FieldsOnce(front) && FieldsSet(front, e0) && SetField(e0, k, v).Ok?
    ensures FieldsOnce(front + [(k, v)])
  {
    var kv := front + [(k, v)];
    SetFieldEffect(e0, k, v);
    forall i, j | 0 <= i < j < |kv| && FieldOf(kv[i].0).Some?
      ensures FieldOf(kv[i].0) != FieldOf(kv[j].0)
    {
      assert kv[i] == front[i];
      if j < |front| {
        assert kv[j] == front[j];
      } else {
        assert Get(e0, FieldOf(kv[i].0).value).Some?;
      }
    }
  }

  lemma SetStep(front: Assoc, k: string, v: string, e0: WorkEstimate)
    requires FieldsSet(front, e0) && SetField(e0, k, v).Ok?
    ensures FieldsSet(front + [(k, v)], SetField(e0, k, v).value)
  {
    var kv := front + [(k, v)];
    var e := SetField(e0, k, v).value;
    SetFieldEffect(e0, k, v);
    forall f
      ensures Get(e, f).Some? <==> exists i :: 0 <= i < |kv| && FieldOf(kv[i].0) == Some(f)
    {
      if Get(e, f).Some? {
        if FieldOf(k) == Some(f) {
          assert FieldOf(kv[|front|].0) == Some(f);
        } else {
          var i :| 0 <= i < |front| && FieldOf(front[i].0) == Some(f);
          assert kv[i] == front[i];
        }
      } else {
        forall i | 0 <= i < |kv| ensures FieldOf(kv[i].0) != Some(f) {
          if i < |front| {
            assert kv[i] == front[i];
          }
        }
      }
    }
  }

  lemma ValuesStep(front: Assoc, k: string, v: string, e0: WorkEstimate)
    requires FieldsValues(front, e0) && SetField(e0, k, v).Ok?
    ensures FieldsValues(front + [(k, v)], SetField(e0, k, v).value)
  {
    var kv := front + [(k, v)];
    var e := SetField(e0, k, v).value;
    SetFieldEffect(e0, k, v);
    forall i | 0 <= i < |kv| && FieldOf(kv[i].0).Some?
      ensures ParseFieldValue(FieldOf(kv[i].0).value, kv[i].1).Ok?
      ensures Get(e, FieldOf(kv[i].0).value) == Some(ParseFieldValue(FieldOf(kv[i].0).value, kv[i].1).value)
    {
      if i < |front| {
        assert kv[i] == front[i];
        assert FieldOf(kv[i].0) != FieldOf(k) by {
          assert Get(e0, FieldOf(kv[i].0).value).Some?;
        }
      }
    }
  }

  /** What one successful clause does to the estimate. */
  lemma SetFieldEffect(e: WorkEstimate, key: string, raw: string)
    requires SetField(e, key, raw).Ok?
    ensures FieldOf(key).None? ==> SetField(e, key, raw).value == e
    ensures FieldOf(key).Some? ==> Get(e, FieldOf(key).value).None? && ParseFieldValue(FieldOf(key).value, raw).Ok?
    ensures FieldOf(key).Some? ==> Get(SetField(e, key, raw).value, FieldOf(key).value) == Some(ParseFieldValue(FieldOf(key).value, raw).value)
    ensures forall g :: Some(g) != FieldOf(key) ==> Get(SetField(e, key, raw).value, g) == Get(e, g)
  {
  }

  /** Repeating the very same key is no error: the dict keeps one entry with the later value. */
  lemma RepeatedKeyLastWins(tokens: seq<string>, k: string)
    requires KeyValues(tokens).Ok?
    ensures Lookup(KeyValues(tokens).value, k) == LastValue(tokens, k, None)
  {
    KeyValuesLastWins(tokens, [], k);
  }

  /**
   * The explicit team: with a `team` clause whose value occurs in some team name, the team is the
   * last such name; the author decides only when no clause selected a team.
   */
  lemma {:induction false} TeamFromClause(kv: Assoc, names: seq<string>, i: nat)
    requires UniqueKeys(kv) && ApplyClauses(kv, names).Ok?
    requires i < |kv| && kv[i].0 in TeamTokens
    ensures ApplyClauses(kv, names).value.1 == LastTeamContaining(names, kv[i].1, None)
  {
    var last := |kv| - 1;
    var front := kv[..last];
    assert ApplyClauses(front, names).Ok?;
    if i == last {
      forall j | 0 <= j < |front| ensures front[j].0 !in TeamTokens {
        assert front[j].0 != kv[i].0;
      }
      TeamUnchangedWithoutKey(front, names);
    } else {
      TeamFromClause(front, names, i);
      assert kv[last].0 != kv[i].0;
    }
  }

  lemma {:induction false} TeamUnchangedWithoutKey(kv: Assoc, names: seq<string>)
    requires ApplyClauses(kv, names).Ok?
    requires forall i :: 0 <= i < |kv| ==> kv[i].0 !in TeamTokens
    ensures ApplyClauses(kv, names).value.1 == None
  {
    if kv != [] {
      TeamUnchangedWithoutKey(kv[..|kv| - 1], names);
    }
  }

  // ---------------------------------------------------------------------------
  // Issue

  /** Estimates per team name; an issue attributed to no team files them under None. */
  type EstimatesByTeam = map<Option<string>, WorkEstimate>

  datatype Issue = Issue(
    key: string,
    summary: string,
    url: string,
    status: Option<string>,
    owner: Option<Team>,
    original: EstimatesByTeam,
    remaining: EstimatesByTeam)

  /** A missing team reads as an empty estimate (the dicts are `defaultdict(WorkEstimate)`). */
  function EstimateFor(m: EstimatesByTeam, team: Option<string>): WorkEstimate {
    if team in m then m[team] else NoEstimate
  }

  predicate IsClosedStatus(status: Option<string>) {
    status.Some? && Lower(status.value) in {"closed", "resolved", "done"}
  }

  /** What is left of a closed issue's estimate: the confidence levels, and no effort. */
  function Exhausted(e: WorkEstimate): (r: WorkEstimate)
    ensures forall f :: IsLevelField(f) ==> Get(r, f) == Get(e, f)
    ensures forall f :: !IsLevelField(f) ==> Get(r, f) == Some(SecondsValue(0))
  {
    WorkEstimate(e.reqsLevel, e.designLevel, Some(0), Some(0), Some(0), Some(0), Some(0))
  }

  /** The remaining estimates of an issue with status `status`: exhausted when it is closed. */
  function RemainingEstimates(status: Option<string>, estimates: EstimatesByTeam): (r: EstimatesByTeam)
    ensures r.Keys == estimates.Keys
    ensures IsClosedStatus(status) ==> forall t, f :: t in r && !IsLevelField(f) ==> Get(r[t], f) == Some(SecondsValue(0))
    ensures IsClosedStatus(status) ==> forall t, f :: t in r && IsLevelField(f) ==> Get(r[t], f) == Get(estimates[t], f)
    ensures !IsClosedStatus(status) ==> r == estimates
  {
    if IsClosedStatus(status) then map t | t in estimates :: Exhausted(estimates[t]) else estimates
  }

  /**
   * `Issue.__init__`: a closed, resolved or done issue (any letter case) has, per team, its
   * levels and no remaining effort; any other issue has its estimates as remaining.
   */
  method MakeIssue(key: string, summary: string, url: string, status: Option<string>, owner: Option<Team>, estimates: EstimatesByTeam)
    returns (issue: Issue)
    ensures issue.key == key && issue.summary == summary && issue.url == url
    ensures issue.status == status && issue.owner == owner && issue.original == estimates
    ensures !IsClosedStatus(status) ==> issue.remaining == estimates
    ensures IsClosedStatus(status) ==>
      issue.remaining.Keys == estimates.Keys && forall t :: t in estimates ==> issue.remaining[t] == Exhausted(estimates[t])
    ensures issue.remaining == RemainingEstimates(status, estimates)
  {
    var remaining := estimates;
    if IsClosedStatus(status) {
      remaining := map[];
      var todo := estimates.Keys;
      while todo != {}
        invariant todo <= estimates.Keys
        invariant remaining.Keys == estimates.Keys - todo
        invariant forall t :: t in remaining ==> remaining[t] == Exhausted(estimates[t])
        decreases |todo|
      {
        var t :| t in todo;
        remaining := remaining[t := Exhausted(estimates[t])];
        todo := todo - {t};
      }
    }
    issue := Issue(key, summary, url, status, owner, estimates, remaining);
  }
}
