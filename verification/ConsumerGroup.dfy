/** Kafka consumer-group ids after a reset: getNewConsumerGroupID in
    modules/firehose/driver_plan.go. */
module ConsumerGroup {
  import opened Text

  predicate GroupChar(c: char) { Digit(c) || 'a' <= c <= 'z' || 'A' <= c <= 'Z' || c == '-' }

  predicate AllGroupChars(s: string) { forall i :: 0 <= i < |s| ==> GroupChar(s[i]) }

  /** ^([A-Za-z0-9-]+)-([0-9]+)$ : the two submatches of s. */
  ghost predicate RegexMatch(s: string, prefix: string, digits: string) {
    s == prefix + "-" + digits && prefix != "" && digits != "" && AllGroupChars(prefix) && AllDigits(digits)
  }

  /** FindStringSubmatch, computed by cutting at the last hyphen. */
  function Submatch(s: string): (r: Option<(string, string)>)
    ensures r.Some? ==> RegexMatch(s, r.value.0, r.value.1)
  {
    var i := LastIndex(s, '-');
    if 0 < i && i < |s| - 1 && AllGroupChars(s[..i]) && AllDigits(s[i + 1..]) then
      assert s == s[..i] + "-" + s[i + 1..];
      Some((s[..i], s[i + 1..]))
    else
      None
  }

  /** The regular expression matches in at most one way, and Submatch finds it. */
  lemma SubmatchIsRegex(s: string, prefix: string, digits: string)
    ensures RegexMatch(s, prefix, digits) <==> Submatch(s) == Some((prefix, digits))
  {
    if RegexMatch(s, prefix, digits) {
      assert '-' !in digits;
      LastIndexOfJoin(prefix, '-', digits);
      assert s[..|prefix|] == prefix && s[|prefix| + 1..] == digits;
    }
  }

  predicate Matches(s: string) { Submatch(s).Some? }

  /** The sequence number of a matching id. */
  function Sequence(s: string): nat
    requires Matches(s)
  {
    Value(Submatch(s).value.1)
  }

  /** An int printed by %d after a wrapping 64-bit increment. */
  function PrintSuccessor(n: nat): string
    requires n <= MAX_INT64
  {
    if n == MAX_INT64 then "-" + Decimal(MAX_INT64 + 1) else Decimal(n + 1)
  }

  /** None is the conversion error of a sequence that does not fit 64 bits. */
  function Next(group: string): Option<string> {
    match Submatch(group)
    case None => Some(group + "-1")
    case Some((prefix, digits)) =>
      if Value(digits) > MAX_INT64 then None
      else Some(prefix + "-" + PrintSuccessor(Value(digits)))
  }

  /** Below the 64-bit bound a reset keeps the prefix and adds one to the number. */
  lemma NextIncrements(s: string)
    requires Matches(s) && Sequence(s) < MAX_INT64
    ensures Next(s).Some?
    ensures Submatch(Next(s).value) == Some((Submatch(s).value.0, Decimal(Sequence(s) + 1)))
    ensures Sequence(Next(s).value) == Sequence(s) + 1
  {
    SubmatchIsRegex(Next(s).value, Submatch(s).value.0, Decimal(Sequence(s) + 1));
  }

  /** At the bound the counter wraps: the printed minus sign joins the prefix. */
  lemma NextWraps(s: string)
    requires Matches(s) && Sequence(s) == MAX_INT64
    ensures Next(s).Some?
    ensures Submatch(Next(s).value) == Some((Submatch(s).value.0 + "-", Decimal(MAX_INT64 + 1)))
    ensures Next(Next(s).value).None?
  {
    var prefix := Submatch(s).value.0;
    assert Next(s).value == (prefix + "-") + "-" + Decimal(MAX_INT64 + 1);
    SubmatchIsRegex(Next(s).value, prefix + "-", Decimal(MAX_INT64 + 1));
  }

  /** A strict order every reset climbs: unmatched ids by length, then matched ids by number. */
  predicate Below(a: string, b: string) {
    if Matches(b) then Matches(a) ==> Sequence(a) < Sequence(b)
    else !Matches(a) && |a| < |b|
  }

  lemma NextClimbs(s: string)
    requires Next(s).Some?
    ensures Below(s, Next(s).value)
  {
    if Matches(s) {
      if Sequence(s) < MAX_INT64 { NextIncrements(s); } else { NextWraps(s); }
    }
  }

  /** The id after n resets. */
  function After(s: string, n: nat): Option<string> {
    if n == 0 then Some(s)
    else
      match After(s, n - 1)
      case None => None
      case Some(t) => Next(t)
  }

  lemma {:induction false} AfterClimbs(s: string, i: nat, j: nat)
    requires i < j && After(s, j).Some?
    ensures After(s, i).Some? && Below(After(s, i).value, After(s, j).value)
    decreases j
  {
    hide Next, Submatch, Value;
    var t := After(s, j - 1).value;
    NextClimbs(t);
    if i < j - 1 {
      AfterClimbs(s, i, j - 1);
    }
  }

  /** Starting from any string whatever, no two resets ever give the same group: not even
      across the 64-bit wrap. */
  lemma ResetsNeverRepeat(s: string, i: nat, j: nat)
    requires i < j && After(s, j).Some?
    ensures After(s, i).Some? && After(s, i) != After(s, j)
  {
    AfterClimbs(s, i, j);
  }

  /** A group name of letters, digits and hyphens that carries no number yet gets 1, 2, 3... */
  lemma {:induction false} PlainNameCounts(name: string, n: nat)
    requires name != "" && AllGroupChars(name) && !Matches(name) && n < MAX_INT64
    ensures After(name, n + 1) == Some(name + "-" + Decimal(n + 1))
    decreases n
  {
    if n == 0 {
      assert name + "-" + Decimal(1) == name + "-1";
      assert After(name, 0) == Some(name);
    } else {
      PlainNameCounts(name, n - 1);
      SubmatchIsRegex(name + "-" + Decimal(n), name, Decimal(n));
      assert After(name, n + 1) == Next(After(name, n).value);
    }
  }
}
