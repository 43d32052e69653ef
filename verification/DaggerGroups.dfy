/** Consumer-group ids of dagger sources: readConfig, incrementGroupId and
    splitNameAndNumber in modules/dagger/config.go, consumerReset in modules/dagger/module.go. */
module DaggerGroups {
  import opened Text

  // ------------------------------------------------------- splitting and joining

  /** strings.Split(s, "-"). */
  function Split(s: string): (parts: seq<string>)
    ensures |parts| > 0
    decreases |s|
  {
    var i := LastIndex(s, '-');
    if i < 0 then [s] else Split(s[..i]) + [s[i + 1..]]
  }

  /** strings.Join(parts, "-"). */
  function Join(parts: seq<string>): string {
    if parts == [] then ""
    else if |parts| == 1 then parts[0]
    else Join(parts[..|parts| - 1]) + "-" + parts[|parts| - 1]
  }

  lemma {:induction false} JoinSplit(s: string)
    ensures Join(Split(s)) == s
    decreases |s|
  {
    var i := LastIndex(s, '-');
    if i >= 0 {
      JoinSplit(s[..i]);
      assert Split(s)[..|Split(s)| - 1] == Split(s[..i]);
      assert s == s[..i] + "-" + s[i + 1..];
    }
  }

  /** A group id: a name, a hyphen and a number. */
  function Id(name: string, number: string): string { name + "-" + number }

  /** The text after the last hyphen, or all of it. */
  function LastPart(s: string): string { s[LastIndex(s, '-') + 1..] }

  /** splitNameAndNumber */
  function SplitNameAndNumber(groupId: string): (r: (seq<string>, string))
    ensures r.1 == LastPart(groupId)
  {
    var parts := Split(groupId);
    (parts[..|parts| - 1], parts[|parts| - 1])
  }

  // ------------------------------------------------------------ numbers as text

  /** strconv.Atoi with its error dropped: 0 on bad syntax, clamped on overflow. No part of a
      split id holds a minus sign. */
  function Atoi(s: string): (n: nat)
    ensures n <= MAX_INT64
    ensures s != "" && AllDigits(s) ==> n == if Value(s) <= MAX_INT64 then Value(s) else MAX_INT64
    ensures s == "" || (s[0] != '+' && !AllDigits(s)) ==> n == 0
  {
    var digits := if s != "" && s[0] == '+' then s[1..] else s;
    if digits == "" || !AllDigits(digits) then 0
    else if Value(digits) > MAX_INT64 then MAX_INT64
    else Value(digits)
  }

  /** Two's complement 64-bit addition of a non-negative and a positive number. */
  function Add64(a: nat, b: nat): (n: int)
    requires a <= MAX_INT64 && b <= MAX_INT64
    ensures -MAX_INT64 - 1 <= n <= MAX_INT64 && (n == a + b || n == a + b - 0x1_0000_0000_0000_0000)
  {
    if a + b <= MAX_INT64 then a + b else a + b - 2 * (MAX_INT64 + 1)
  }

  function ZeroPad(s: string, width: nat): (r: string)
    requires AllDigits(s)
    ensures AllDigits(r) && Value(r) == Value(s)
    ensures |r| == if |s| < width then width else |s|
    decreases width - |s|
  {
    if |s| >= width then s else
    LeadingZero(s);
    ZeroPad("0" + s, width)
  }

  lemma {:induction false} LeadingZero(s: string)
    requires AllDigits(s)
    ensures AllDigits("0" + s) && Value("0" + s) == Value(s)
  {
    var z := "0" + s;
    if s == "" {
      assert z[..0] == "";
    } else {
      LeadingZero(s[..|s| - 1]);
      assert z[..|z| - 1] == "0" + s[..|s| - 1];
    }
  }

  /** fmt.Sprintf("%04d", n) */
  function Pad4(n: int): (s: string)
    ensures n >= 0 ==> AllDigits(s) && Value(s) == n && |s| >= 4
    ensures n < 0 ==> s != "" && s[0] == '-'
  {
    if n >= 0 then ZeroPad(Decimal(n), 4) else "-" + ZeroPad(Decimal(-n), 3)
  }

  lemma Pad4Injective(a: int, b: int)
    requires Pad4(a) == Pad4(b)
    ensures a == b
  {
    hide ZeroPad, Decimal;
    if a < 0 && b < 0 {
      assert ZeroPad(Decimal(-a), 3) == Pad4(a)[1..] && ZeroPad(Decimal(-b), 3) == Pad4(b)[1..];
    }
  }

  /** The number text `step` after `number`. */
  function Bump(number: string, step: nat): string
    requires step <= MAX_INT64
  {
    Pad4(Add64(Atoi(number), step))
  }

  lemma BumpDigits(number: string, step: nat)
    requires number != "" && AllDigits(number) && Value(number) + step <= MAX_INT64
    ensures Bump(number, step) == Pad4(Value(number) + step)
  {
    hide Value, Pad4;
    assert number[0] != '+';
  }

  /** incrementGroupId; for a name with no hyphen only the number remains. */
  function IncrementGroupId(groupId: string, step: nat): string
    requires step <= MAX_INT64
  {
    var (name, number) := SplitNameAndNumber(groupId);
    Join(name + [Bump(number, step)])
  }

  /** The id advanced in place: the text before the last hyphen stays. */
  function NextId(groupId: string, step: nat): string
    requires step <= MAX_INT64
  {
    var i := LastIndex(groupId, '-');
    groupId[..i + 1] + Bump(groupId[i + 1..], step)
  }

  lemma JoinAppend(parts: seq<string>, last: string)
    ensures Join(parts + [last]) == if parts == [] then last else Join(parts) + "-" + last
  {
    assert (parts + [last])[..|parts|] == parts;
  }

  lemma JoinAfterPrefix(groupId: string, name: seq<string>, last: string, i: nat)
    requires i < |groupId| && groupId[i] == '-'
    requires name != [] && Join(name) == groupId[..i]
    ensures Join(name + [last]) == groupId[..i + 1] + last
  {
    JoinAppend(name, last);
    assert groupId[..i + 1] == groupId[..i] + "-";
  }

  /** splitNameAndNumber cuts at the last hyphen. */
  lemma NameParts(groupId: string)
    ensures var i := LastIndex(groupId, '-');
      SplitNameAndNumber(groupId) == (if i < 0 then [] else Split(groupId[..i]), groupId[i + 1..])
  {
  }

  lemma JoinBack(groupId: string, i: int, last: string)
    requires i == LastIndex(groupId, '-')
    ensures Join((if i < 0 then [] else Split(groupId[..i])) + [last]) == groupId[..i + 1] + last
  {
    hide *;
    if i < 0 {
      JoinAppend([], last);
      assert groupId[..0] + last == last;
    } else {
      JoinSplit(groupId[..i]);
      JoinAfterPrefix(groupId, Split(groupId[..i]), last, i);
    }
  }

  /** Splitting and joining cancel out, so incrementGroupId only advances the number. */
  lemma IncrementIsNextId(groupId: string, step: nat)
    requires step <= MAX_INT64
    ensures IncrementGroupId(groupId, step) == NextId(groupId, step)
  {
    hide Split, Join, SplitNameAndNumber, Bump, LastIndex, Value, AllDigits;
    var i := LastIndex(groupId, '-');
    NameParts(groupId);
    JoinBack(groupId, i, Bump(groupId[i + 1..], step));
  }

  lemma LastPartOfId(name: string, number: string)
    requires '-' !in number
    ensures LastIndex(Id(name, number), '-') == |name| && LastPart(Id(name, number)) == number
  {
    LastIndexOfJoin(name, '-', number);
  }

  lemma NextIdOfId(name: string, number: string, step: nat)
    requires '-' !in number && step <= MAX_INT64
    ensures NextId(Id(name, number), step) == Id(name, Bump(number, step))
  {
    LastPartOfId(name, number);
    assert Id(name, number)[..|name| + 1] == name + "-";
  }

  /** The id n steps after a number in digits. */
  lemma NextIdCounts(name: string, number: string, step: nat)
    requires number != "" && AllDigits(number) && Value(number) + step <= MAX_INT64
    ensures NextId(Id(name, number), step) == Id(name, Pad4(Value(number) + step))
  {
    NextIdOfId(name, number, step);
    BumpDigits(number, step);
  }

  // ------------------------------------------------------------ Go string order

  predicate Less(a: string, b: string) {
    if b == "" then false
    else if a == "" then true
    else a[0] < b[0] || (a[0] == b[0] && Less(a[1..], b[1..]))
  }

  /** a stops short at n, or holds the lesser character there, having agreed with b up to n. */
  predicate DecidedAt(a: string, b: string, n: nat) {
    n <= |a| && n < |b| && a[..n] == b[..n] && (n == |a| || a[n] < b[n])
  }

  /** That is what it means to come first in the order of texts. */
  lemma {:induction false} LessIsLexicographic(a: string, b: string)
    ensures Less(a, b) <==> exists n: nat :: DecidedAt(a, b, n)
  {
    if a == "" || b == "" {
      if b != "" {
        assert DecidedAt(a, b, 0);
      }
    } else {
      LessIsLexicographic(a[1..], b[1..]);
      if a[0] == b[0] {
        if n: nat :| DecidedAt(a[1..], b[1..], n) {
          assert a[..n + 1] == [a[0]] + a[1..][..n] && b[..n + 1] == [b[0]] + b[1..][..n];
          assert DecidedAt(a, b, n + 1);
        }
        if n: nat :| DecidedAt(a, b, n) {
          AgreesAtFront(a, b, n);
        }
      } else if a[0] < b[0] {
        assert DecidedAt(a, b, 0);
      } else if n: nat :| DecidedAt(a, b, n) {
        FrontDecides(a, b, n);
      }
    }
  }

  lemma FrontDecides(a: string, b: string, n: nat)
    requires a != "" && b != "" && DecidedAt(a, b, n)
    ensures a[0] <= b[0]
  {
    if n > 0 {
      assert a[..n][0] == b[..n][0];
    }
  }

  lemma AgreesAtFront(a: string, b: string, n: nat)
    requires a != "" && b != "" && a[0] == b[0] && DecidedAt(a, b, n)
    ensures n > 0 && DecidedAt(a[1..], b[1..], n - 1)
  {
    assert a[1..][..n - 1] == a[..n][1..] && b[1..][..n - 1] == b[..n][1..];
  }

  lemma {:induction false} LessTransitive(a: string, b: string, c: string)
    requires !Less(b, a) && Less(b, c)
    ensures !Less(c, a)
  {
    if a != "" && b != "" && c != "" {
      if a[0] == b[0] == c[0] {
        LessTransitive(a[1..], b[1..], c[1..]);
      }
    }
  }

  lemma {:induction false} LessIsStrict(a: string, b: string)
    ensures !(Less(a, b) && Less(b, a))
  {
    if a != "" && b != "" {
      LessIsStrict(a[1..], b[1..]);
    }
  }

  lemma {:induction false} LessAfterPrefix(p: string, a: string, b: string)
    ensures Less(p + a, p + b) == Less(a, b)
  {
    if p == "" {
      assert p + a == a && p + b == b;
    } else {
      LessAfterPrefix(p[1..], a, b);
      assert (p + a)[1..] == p[1..] + a && (p + b)[1..] == p[1..] + b;
    }
  }

  lemma {:induction false} LessSnoc(a: string, x: char, b: string, y: char)
    requires |a| == |b|
    ensures Less(a + [x], b + [y]) <==> Less(a, b) || (a == b && x < y)
  {
    if a != "" {
      LessSnoc(a[1..], x, b[1..], y);
      assert (a + [x])[1..] == a[1..] + [x] && (b + [y])[1..] == b[1..] + [y];
      assert a == [a[0]] + a[1..] && b == [b[0]] + b[1..];
    }
  }

  lemma {:induction false} ValueInjective(a: string, b: string)
    requires |a| == |b| && AllDigits(a) && AllDigits(b) && Value(a) == Value(b)
    ensures a == b
  {
    if a != "" {
      var n := |a| - 1;
      ValueInjective(a[..n], b[..n]);
      assert a == a[..n] + [a[n]] && b == b[..n] + [b[n]];
    }
  }

  /** Text order and number order agree on digit strings of one length. */
  lemma {:induction false} LessIsValueOrder(a: string, b: string)
    requires |a| == |b| && AllDigits(a) && AllDigits(b)
    ensures Less(a, b) <==> Value(a) < Value(b)
  {
    if a != "" {
      var n := |a| - 1;
      LessIsValueOrder(a[..n], b[..n]);
      LessSnoc(a[..n], a[n], b[..n], b[n]);
      assert a == a[..n] + [a[n]] && b == b[..n] + [b[n]];
      if Value(a[..n]) == Value(b[..n]) {
        ValueInjective(a[..n], b[..n]);
      }
    }
  }

  // -------------------------------------------------------------------- sources

  datatype Source = Source(groupId: string, autoCommit: string, offsetReset: string, brokers: string, parquetPaths: seq<string>)

  function Ids(source: seq<Source>): (ids: seq<string>)
    ensures |ids| == |source|
  {
    seq(|source|, i requires 0 <= i < |source| => source[i].groupId)
  }

  /** The textually greatest of ids, started from `least`. */
  function TextMax(ids: seq<string>, least: string): string {
    if ids == [] then least
    else
      var m := TextMax(ids[..|ids| - 1], least);
      if Less(m, ids[|ids| - 1]) then ids[|ids| - 1] else m
  }

  /** It is one of them, and none comes after it. */
  lemma {:induction false} TextMaxIsGreatest(ids: seq<string>, least: string)
    ensures var m := TextMax(ids, least);
      (m == least || m in ids) && !Less(m, least) && forall id :: id in ids ==> !Less(m, id)
  {
    if ids == [] {
      LessIsStrict(least, least);
    } else {
      var init, last := ids[..|ids| - 1], ids[|ids| - 1];
      TextMaxIsGreatest(init, least);
      var before, m := TextMax(init, least), TextMax(ids, least);
      LessIsStrict(m, m);
      assert ids == init + [last];
      forall id | id in init || id == least ensures !Less(m, id) {
        if Less(before, last) {
          LessTransitive(id, before, last);
        }
      }
    }
  }

  /** The id consumerReset gives to source i. */
  function ResetId(ids: seq<string>, i: nat): string
    requires i < |ids| < MAX_INT64
  {
    NextId(TextMax(ids, ids[0]), i + 1)
  }

  /** The greatest id of the sources. */
  method BaseGroup(source: array<Source>) returns (baseGroup: string)
    requires 0 < source.Length
    ensures baseGroup == TextMax(Ids(source[..]), source[0].groupId)
  {
    ghost var ids := Ids(source[..]);
    baseGroup := source[0].groupId;
    for i := 0 to source.Length
      invariant baseGroup == TextMax(ids[..i], source[0].groupId)
    {
      assert ids[..i + 1][..i] == ids[..i];
      if Less(baseGroup, source[i].groupId) {
        baseGroup := source[i].groupId;
      }
    }
    assert ids[..source.Length] == ids;
  }

  /** Sources that read parquet files are left alone; the first one decides for all. */
  method ConsumerReset(source: array<Source>, resetTo: string)
    requires 0 < source.Length < MAX_INT64
    modifies source
    ensures old(source[0].parquetPaths) != [] ==> source[..] == old(source[..])
    ensures old(source[0].parquetPaths) == [] ==>
              forall i :: 0 <= i < source.Length ==>
                && source[i].groupId == ResetId(Ids(old(source[..])), i) && source[i].offsetReset == resetTo
                && source[i].autoCommit == old(source[i]).autoCommit && source[i].brokers == old(source[i]).brokers
                && source[i].parquetPaths == old(source[i]).parquetPaths
  {
    hide NextId, Bump, IncrementGroupId, LastIndex;
    if source[0].parquetPaths != [] {
      return;
    }
    ghost var ids := Ids(source[..]);
    var baseGroup := BaseGroup(source);
    for i := 0 to source.Length
      invariant forall j :: 0 <= j < i ==> source[j] == old(source[j]).(groupId := ResetId(ids, j), offsetReset := resetTo)
      invariant forall j :: i <= j < source.Length ==> source[j] == old(source[j])
    {
      var id := IncrementGroupId(baseGroup, i + 1);
      IncrementIsNextId(baseGroup, i + 1);
      source[i] := source[i].(groupId := id, offsetReset := resetTo);
    }
  }

  predicate FourDigits(number: string) { |number| == 4 && AllDigits(number) }

  /** Ids "<name>-dddd" with these four-digit numbers. */
  predicate Named(ids: seq<string>, name: string, numbers: seq<string>) {
    |ids| == |numbers| && forall j :: 0 <= j < |numbers| ==> ids[j] == Id(name, numbers[j]) && FourDigits(numbers[j])
  }

  lemma LessIds(name: string, a: string, b: string)
    requires FourDigits(a) && FourDigits(b)
    ensures Less(Id(name, a), Id(name, b)) <==> Value(a) < Value(b)
  {
    LessAfterPrefix(name + "-", a, b);
    LessIsValueOrder(a, b);
  }

  /** Over such ids the textual maximum is the numeric one. */
  lemma {:induction false} TextMaxIsNumberMax(ids: seq<string>, name: string, numbers: seq<string>, least: string)
    requires Named(ids, name, numbers) && FourDigits(least)
    ensures var m := TextMax(numbers, least);
      && TextMax(ids, Id(name, least)) == Id(name, m)
      && FourDigits(m) && Value(least) <= Value(m)
      && forall j :: 0 <= j < |numbers| ==> Value(numbers[j]) <= Value(m)
  {
    if ids != [] {
      var n := |ids| - 1;
      TextMaxIsNumberMax(ids[..n], name, numbers[..n], least);
      var m := TextMax(numbers[..n], least);
      LessIds(name, m, numbers[n]);
      LessIsValueOrder(m, numbers[n]);
      assert forall j :: 0 <= j < n ==> numbers[j] == numbers[..n][j];
    }
  }

  /** The greatest number in use. */
  function TopNumber(numbers: seq<string>): nat
    requires numbers != [] && FourDigits(TextMax(numbers, numbers[0]))
  {
    Value(TextMax(numbers, numbers[0]))
  }

  lemma {:induction false} DigitsBound(s: string)
    requires AllDigits(s)
    ensures |s| == 0 ==> Value(s) == 0
    ensures |s| == 1 ==> Value(s) <= 9
    ensures |s| == 2 ==> Value(s) <= 99
    ensures |s| == 3 ==> Value(s) <= 999
    ensures |s| == 4 ==> Value(s) <= 9999
  {
    if s != "" {
      DigitsBound(s[..|s| - 1]);
    }
  }

  /** What a reset hands out: the same name with the numbers after the greatest. */
  lemma ResetIdIs(ids: seq<string>, name: string, numbers: seq<string>, i: nat)
    requires Named(ids, name, numbers) && i < |ids| <= MAX_INT64 - 9999
    ensures FourDigits(TextMax(numbers, numbers[0])) && TopNumber(numbers) <= 9999
    ensures forall j :: 0 <= j < |numbers| ==> Value(numbers[j]) <= TopNumber(numbers)
    ensures ResetId(ids, i) == Id(name, Pad4(TopNumber(numbers) + i + 1))
  {
    hide Value, Decimal, ZeroPad, Bump, LastIndex, Pad4, TextMax, NextId, Id;
    TextMaxIsNumberMax(ids, name, numbers, numbers[0]);
    var m := TextMax(numbers, numbers[0]);
    DigitsBound(m);
    NextIdCounts(name, m, i + 1);
  }

  lemma SameIdSameNumber(name: string, a: string, b: string)
    requires Id(name, a) == Id(name, b)
    ensures a == b
  {
    assert Id(name, a)[|name| + 1..] == a && Id(name, b)[|name| + 1..] == b;
  }

  /** The text of the greatest id up to and with its last hyphen, and the number after it. */
  function BasePrefix(ids: seq<string>): string
    requires ids != []
  {
    var m := TextMax(ids, ids[0]);
    m[..LastIndex(m, '-') + 1]
  }

  function BaseCount(ids: seq<string>): (n: nat)
    requires ids != []
    ensures n <= MAX_INT64
  {
    Atoi(LastPart(TextMax(ids, ids[0])))
  }

  ghost predicate ResetIsFresh(ids: seq<string>)
    requires |ids| < MAX_INT64
  {
    && (forall i, j :: 0 <= i < j < |ids| ==> ResetId(ids, i) != ResetId(ids, j))
    && (forall i :: 0 <= i < |ids| ==> ResetId(ids, i) !in ids)
  }

  /** None of the numbers that follow the one in the textually greatest id, in 64-bit
      arithmetic and one for each source, is in use after the same prefix. */
  ghost predicate FollowingUnused(ids: seq<string>)
    requires 0 < |ids| < MAX_INT64
  {
    forall k :: 1 <= k <= |ids| ==> BasePrefix(ids) + Pad4(Add64(BaseCount(ids), k)) !in ids
  }

  lemma ResetIdAt(ids: seq<string>, i: nat)
    requires i < |ids| < MAX_INT64
    ensures ResetId(ids, i) == BasePrefix(ids) + Pad4(Add64(BaseCount(ids), i + 1))
  {
    hide Pad4, Add64, Atoi, TextMax, LastIndex;
  }

  /** Exactly when a reset gives every source an id of its own that no source had before, for
      any ids at all. */
  lemma ResetFreshIff(ids: seq<string>)
    requires 0 < |ids| < MAX_INT64
    ensures ResetIsFresh(ids) <==> FollowingUnused(ids)
  {
    hide Pad4, Atoi, TextMax, LastIndex, BasePrefix, BaseCount, ResetId;
    var p, n := BasePrefix(ids), BaseCount(ids);
    forall i, j | 0 <= i < j < |ids| ensures ResetId(ids, i) != ResetId(ids, j) {
      ResetIdAt(ids, i);
      ResetIdAt(ids, j);
      var a, b := Add64(n, i + 1), Add64(n, j + 1);
      if p + Pad4(a) == p + Pad4(b) {
        assert (p + Pad4(a))[|p|..] == Pad4(a) && (p + Pad4(b))[|p|..] == Pad4(b);
        Pad4Injective(a, b);
      }
    }
    forall i | 0 <= i < |ids| ensures ResetId(ids, i) == p + Pad4(Add64(n, i + 1)) {
      ResetIdAt(ids, i);
    }
    if ResetIsFresh(ids) {
      forall k | 1 <= k <= |ids| ensures p + Pad4(Add64(n, k)) !in ids {
        assert ResetId(ids, k - 1) !in ids;
      }
    }
  }

  /** In particular when the ids share one name and have four-digit numbers. */
  lemma ResetGivesFreshIds(ids: seq<string>, name: string, numbers: seq<string>)
    requires Named(ids, name, numbers) && |ids| <= MAX_INT64 - 9999
    ensures forall i, j :: 0 <= i < j < |ids| ==> ResetId(ids, i) != ResetId(ids, j)
    ensures forall i :: 0 <= i < |ids| ==> ResetId(ids, i) !in ids
  {
    hide Pad4, Atoi, TextMax, LastIndex, BasePrefix, BaseCount, ResetId, Value;
    if ids != [] {
      forall k | 1 <= k <= |ids| ensures BasePrefix(ids) + Pad4(Add64(BaseCount(ids), k)) !in ids {
        ResetIdAt(ids, k - 1);
        ResetIdIs(ids, name, numbers, k - 1);
        forall j | 0 <= j < |ids| ensures ids[j] != ResetId(ids, k - 1) {
          if ids[j] == ResetId(ids, k - 1) {
            SameIdSameNumber(name, Pad4(TopNumber(numbers) + k), numbers[j]);
          }
        }
      }
      ResetFreshIff(ids);
    }
  }

  ghost predicate HasFourDigits(id: string, name: string) {
    exists number :: FourDigits(number) && id == Id(name, number)
  }

  /** The hypothesis survives the reset, so resets can be repeated, exactly while the numbers
      stay within four digits. */
  lemma ResetKeepsFourDigits(ids: seq<string>, name: string, numbers: seq<string>)
    requires Named(ids, name, numbers) && 0 < |ids| <= MAX_INT64 - 9999
    requires FourDigits(TextMax(numbers, numbers[0]))
    ensures (forall i :: 0 <= i < |ids| ==> HasFourDigits(ResetId(ids, i), name)) <==> TopNumber(numbers) + |ids| <= 9999
  {
    hide Value, Decimal, ZeroPad, Pad4, Bump, LastIndex, NextId, TextMax;
    var top := TopNumber(numbers);
    forall i | 0 <= i < |ids|
      ensures HasFourDigits(ResetId(ids, i), name) <==> top + i + 1 <= 9999
    {
      ResetIdIs(ids, name, numbers, i);
      DecimalWidth(top + i + 1);
      if number :| FourDigits(number) && ResetId(ids, i) == Id(name, number) {
        SameIdSameNumber(name, number, Pad4(top + i + 1));
      }
    }
    assert HasFourDigits(ResetId(ids, |ids| - 1), name) <==> top + |ids| <= 9999;
  }

  lemma DecimalWidth(n: nat)
    ensures |Decimal(n)| <= 4 <==> n <= 9999
    ensures FourDigits(Pad4(n)) <==> n <= 9999
  {
    if n > 9999 {
      var q := n / 10;
      assert |Decimal(q / 10 / 10)| >= 2;
      assert |Decimal(q / 10)| >= 3;
      assert |Decimal(q)| >= 4;
    } else if n >= 10 {
      var q := n / 10;
      assert |Decimal(n)| == |Decimal(q)| + 1;
      if q >= 10 { assert |Decimal(q)| == |Decimal(q / 10)| + 1; }
      if q / 10 >= 10 { assert |Decimal(q / 10)| == |Decimal(q / 10 / 10)| + 1; }
    }
  }

  lemma TextMaxOfTwo(a: string, b: string)
    ensures TextMax([a, b], a) == if Less(a, b) then b else a
  {
    assert [a, b][..1] == [a] && [a][..0] == [];
    assert TextMax([], a) == a;
    assert TextMax([a], a) == a;
  }

  lemma ValueOfNines()
    ensures AllDigits("9999") && Value("9999") == 9999
  {
    assert "9999"[..3] == "999" && "999"[..2] == "99" && "99"[..1] == "9" && "9"[..0] == "";
    assert Value("9") == 9 && Value("99") == 99 && Value("999") == 999;
  }

  lemma DecimalOfTenThousand()
    ensures Decimal(10000) == "10000"
  {
    assert Decimal(1) == "1" && Decimal(10) == "10" && Decimal(100) == "100" && Decimal(1000) == "1000";
  }

  lemma PadOfTenThousand()
    ensures Pad4(10000) == "10000"
  {
    hide Decimal, Value;
    DecimalOfTenThousand();
  }

  /** Past four digits text order misleads: "9999" beats "10000", and the reset hands the
      first source the id its neighbour already has. */
  lemma ResetCollidesPastFourDigits()
    ensures ResetId([Id("d", "9999"), Id("d", "10000")], 0) == Id("d", "10000")
    ensures !FollowingUnused([Id("d", "9999"), Id("d", "10000")])
  {
    var ids := [Id("d", "9999"), Id("d", "10000")];
    NinesAreFollowed();
    assert ids[1] in ids && ResetId(ids, 0) in ids;
    ResetFreshIff(ids);
  }

  lemma NinesAreFollowed()
    ensures ResetId([Id("d", "9999"), Id("d", "10000")], 0) == Id("d", "10000")
  {
    hide Value, Decimal, ZeroPad, Pad4, Bump, LastIndex, NextId, TextMax;
    LessAfterPrefix("d-", "9999", "10000");
    TextMaxOfTwo(Id("d", "9999"), Id("d", "10000"));
    ValueOfNines();
    PadOfTenThousand();
    NextIdCounts("d", "9999", 1);
  }

  // ------------------------------------------------- ids for sources without one

  /** How many of the first n sources have no id. */
  function Missing(ids: seq<string>, n: nat): (c: nat)
    requires n <= |ids|
    ensures c <= n
  {
    if n == 0 then 0 else Missing(ids, n - 1) + (if ids[n - 1] == "" then 1 else 0)
  }

  function Numbers(ids: seq<string>): (r: seq<string>)
    ensures |r| == |ids|
  {
    seq(|ids|, i requires 0 <= i < |ids| => LastPart(ids[i]))
  }

  /** The textually greatest suffix, and the number generation starts from. */
  function TopSuffix(ids: seq<string>): string { TextMax(Numbers(ids), "0000") }

  function BaseNumber(ids: seq<string>): (n: nat)
    ensures n <= MAX_INT64
  {
    Atoi(TopSuffix(ids))
  }

  function AssignedId(ids: seq<string>, deployment: string, i: nat): string
    requires i < |ids| < MAX_INT64
  {
    if ids[i] != "" then ids[i]
    else NextId(Id(deployment, TopSuffix(ids)), Missing(ids, i + 1))
  }

  function OrElse(s: string, default: string): string { if s == "" then default else s }

  datatype SourceDefaults = SourceDefaults(autoCommit: string, offsetReset: string, brokers: string)

  /** Every setting of `s` that is given stays, and every other is the driver's. */
  predicate Filled(s: Source, r: Source, d: SourceDefaults) {
    && r.autoCommit == (if s.autoCommit != "" then s.autoCommit else d.autoCommit)
    && r.offsetReset == (if s.offsetReset != "" then s.offsetReset else d.offsetReset)
    && r.brokers == (if s.brokers != "" then s.brokers else d.brokers)
    && r.parquetPaths == s.parquetPaths
  }

  function ReadSource(s: Source, id: string, d: SourceDefaults): Source {
    Source(id, OrElse(s.autoCommit, d.autoCommit), OrElse(s.offsetReset, d.offsetReset), OrElse(s.brokers, d.brokers), s.parquetPaths)
  }

  /** The greatest suffix of the sources. */
  method MaxSuffix(source: array<Source>) returns (maxSuffix: string)
    ensures maxSuffix == TopSuffix(Ids(source[..]))
  {
    ghost var numbers := Numbers(Ids(source[..]));
    maxSuffix := "0000";
    for i := 0 to source.Length
      invariant maxSuffix == TextMax(numbers[..i], "0000")
    {
      assert numbers[..i + 1][..i] == numbers[..i];
      var (_, number) := SplitNameAndNumber(source[i].groupId);
      if Less(maxSuffix, number) {
        maxSuffix := number;
      }
    }
    assert numbers[..source.Length] == numbers;
  }

  /** The id, and the three settings a source takes from the driver. */
  method WithDefaults(source: Source, id: string, d: SourceDefaults) returns (s: Source)
    ensures s == ReadSource(source, id, d)
    ensures Filled(source, s, d) && s.groupId == id
  {
    s := source.(groupId := id);
    if s.autoCommit == "" { s := s.(autoCommit := d.autoCommit); }
    if s.offsetReset == "" { s := s.(offsetReset := d.offsetReset); }
    if s.brokers == "" { s := s.(brokers := d.brokers); }
  }

  /** The source part of readConfig. */
  method ReadSources(source: array<Source>, deployment: string, d: SourceDefaults)
    requires 0 < source.Length < MAX_INT64
    modifies source
    ensures old(source[0].parquetPaths) != [] ==> source[..] == old(source[..])
    ensures old(source[0].parquetPaths) == [] ==>
              forall i :: 0 <= i < source.Length ==>
                && source[i] == ReadSource(old(source[i]), AssignedId(Ids(old(source[..])), deployment, i), d)
                && Filled(old(source[i]), source[i], d)
                && (old(source[i]).groupId != "" ==> source[i].groupId == old(source[i]).groupId)
  {
    hide NextId, Bump, IncrementGroupId, LastIndex, TopSuffix, ReadSource, Filled;
    if source[0].parquetPaths != [] {
      return;
    }
    ghost var ids := Ids(source[..]);
    var maxSuffix := MaxSuffix(source);
    var numberOffset := 0;
    for i := 0 to source.Length
      invariant numberOffset == Missing(ids, i)
      invariant forall j :: 0 <= j < i ==>
                  && source[j] == ReadSource(old(source[j]), AssignedId(ids, deployment, j), d)
                  && Filled(old(source[j]), source[j], d) && source[j].groupId == AssignedId(ids, deployment, j)
      invariant forall j :: i <= j < source.Length ==> source[j] == old(source[j])
    {
      var id := source[i].groupId;
      if id == "" {
        numberOffset := numberOffset + 1;
        IncrementIsNextId(Id(deployment, maxSuffix), numberOffset);
        id := IncrementGroupId(Id(deployment, maxSuffix), numberOffset);
      }
      source[i] := WithDefaults(source[i], id, d);
    }
  }

  lemma {:induction false} MissingGrows(ids: seq<string>, i: nat, j: nat)
    requires i < j <= |ids| && ids[j - 1] == ""
    ensures Missing(ids, i) < Missing(ids, j)
  {
    if i < j - 1 {
      MissingMonotone(ids, i, j - 1);
    }
  }

  lemma {:induction false} MissingMonotone(ids: seq<string>, i: nat, j: nat)
    requires i <= j <= |ids|
    ensures Missing(ids, i) <= Missing(ids, j)
  {
    if i < j {
      MissingMonotone(ids, i, j - 1);
    }
  }

  lemma {:induction false} TextMaxPicks(texts: seq<string>, least: string)
    ensures TextMax(texts, least) == least || TextMax(texts, least) in texts
  {
    if texts != [] {
      TextMaxPicks(texts[..|texts| - 1], least);
    }
  }

  lemma TopSuffixHasNoHyphen(ids: seq<string>)
    ensures '-' !in TopSuffix(ids)
  {
    TextMaxPicks(Numbers(ids), "0000");
    forall i | 0 <= i < |ids| ensures '-' !in Numbers(ids)[i] {
      assert Numbers(ids)[i] == LastPart(ids[i]);
    }
  }

  /** Generated ids count up from the base number under the deployment's name. */
  lemma AssignedIdIs(ids: seq<string>, deployment: string, i: nat)
    requires i < |ids| < MAX_INT64 && ids[i] == ""
    ensures AssignedId(ids, deployment, i) == Id(deployment, Pad4(Add64(BaseNumber(ids), Missing(ids, i + 1))))
  {
    hide TopSuffix, Atoi, Value, Decimal, ZeroPad, Pad4, LastIndex, NextId, Missing;
    TopSuffixHasNoHyphen(ids);
    NextIdOfId(deployment, TopSuffix(ids), Missing(ids, i + 1));
  }

  /** No source shares an id with a source that was given one. */
  ghost predicate GeneratedAreUnique(ids: seq<string>, deployment: string)
    requires |ids| < MAX_INT64
  {
    forall i, j :: 0 <= i < |ids| && 0 <= j < |ids| && i != j && ids[i] == "" ==>
      AssignedId(ids, deployment, i) != AssignedId(ids, deployment, j)
  }

  /** No configured id is the deployment followed by one of the numbers about to be used, in
      64-bit arithmetic. */
  ghost predicate NextNumbersUnused(ids: seq<string>, deployment: string)
    requires |ids| < MAX_INT64
  {
    forall c :: 1 <= c <= Missing(ids, |ids|) ==> Id(deployment, Pad4(Add64(BaseNumber(ids), c))) !in ids
  }

  lemma {:induction false} EveryCountIsReached(ids: seq<string>, c: nat, k: nat) returns (i: nat)
    requires k <= |ids| && 0 < c <= Missing(ids, k)
    ensures i < k && ids[i] == "" && Missing(ids, i + 1) == c
  {
    if Missing(ids, k - 1) < c {
      i := k - 1;
    } else {
      i := EveryCountIsReached(ids, c, k - 1);
    }
  }

  lemma GeneratedDiffer(ids: seq<string>, deployment: string, i: nat, j: nat)
    requires i < |ids| && j < |ids| < MAX_INT64
    requires i != j && ids[i] == "" && ids[j] == ""
    ensures AssignedId(ids, deployment, i) != AssignedId(ids, deployment, j)
  {
    hide Value, Decimal, ZeroPad, Pad4, AssignedId, BaseNumber, LastIndex, Missing, Id;
    if i > j {
      GeneratedDiffer(ids, deployment, j, i);
    } else {
      AssignedIdIs(ids, deployment, i);
      AssignedIdIs(ids, deployment, j);
      MissingGrows(ids, i + 1, j + 1);
      var a, b := Add64(BaseNumber(ids), Missing(ids, i + 1)), Add64(BaseNumber(ids), Missing(ids, j + 1));
      if Id(deployment, Pad4(a)) == Id(deployment, Pad4(b)) {
        SameIdSameNumber(deployment, Pad4(a), Pad4(b));
        Pad4Injective(a, b);
      }
    }
  }

  /** Exactly when the generated ids are unique, for any configured ids at all. */
  lemma GeneratedUniqueIff(ids: seq<string>, deployment: string)
    requires |ids| < MAX_INT64
    ensures GeneratedAreUnique(ids, deployment) <==> NextNumbersUnused(ids, deployment)
  {
    hide Value, Decimal, ZeroPad, Pad4, NextId, BaseNumber, LastIndex, Missing, TopSuffix;
    if NextNumbersUnused(ids, deployment) {
      forall i, j | 0 <= i < |ids| && 0 <= j < |ids| && i != j && ids[i] == ""
        ensures AssignedId(ids, deployment, i) != AssignedId(ids, deployment, j)
      {
        if ids[j] == "" {
          GeneratedDiffer(ids, deployment, i, j);
        } else {
          AssignedIdIs(ids, deployment, i);
          MissingGrows(ids, i, i + 1);
          MissingMonotone(ids, i + 1, |ids|);
        }
      }
    } else {
      var c :| 1 <= c <= Missing(ids, |ids|) && Id(deployment, Pad4(Add64(BaseNumber(ids), c))) in ids;
      var i := EveryCountIsReached(ids, c, |ids|);
      AssignedIdIs(ids, deployment, i);
      var j :| 0 <= j < |ids| && ids[j] == Id(deployment, Pad4(Add64(BaseNumber(ids), c)));
      assert AssignedId(ids, deployment, j) == ids[j];
    }
  }

  predicate EmptyOrFourDigits(s: string) { s == "" || FourDigits(s) }

  lemma {:induction false} MaxOfSuffixes(numbers: seq<string>, least: string)
    requires FourDigits(least) && forall s :: s in numbers ==> EmptyOrFourDigits(s)
    ensures var m := TextMax(numbers, least);
      FourDigits(m) && forall s :: s in numbers && FourDigits(s) ==> Value(s) <= Value(m)
  {
    if numbers != [] {
      var n := |numbers| - 1;
      MaxOfSuffixes(numbers[..n], least);
      assert numbers == numbers[..n] + [numbers[n]];
      assert EmptyOrFourDigits(numbers[n]);
      if FourDigits(numbers[n]) {
        LessIsValueOrder(TextMax(numbers[..n], least), numbers[n]);
      }
    }
  }

  /** In particular they are when every configured id ends in a four-digit number, whatever
      the name before it. */
  lemma FourDigitIdsGenerateUnique(ids: seq<string>, deployment: string)
    requires |ids| <= MAX_INT64 - 9999 && forall i :: 0 <= i < |ids| && ids[i] != "" ==> FourDigits(LastPart(ids[i]))
    ensures GeneratedAreUnique(ids, deployment)
  {
    var numbers := Numbers(ids);
    forall i | 0 <= i < |ids| ensures EmptyOrFourDigits(numbers[i]) {
      if ids[i] == "" { assert numbers[i] == ""; }
    }
    MaxOfSuffixes(numbers, "0000");
    DigitsBound(TopSuffix(ids));
    assert TopSuffix(ids)[0] != '+';
    forall c | 1 <= c <= Missing(ids, |ids|)
      ensures Id(deployment, Pad4(Add64(BaseNumber(ids), c))) !in ids
    {
      var n := Add64(BaseNumber(ids), c);
      LastPartOfId(deployment, Pad4(n));
      forall i | 0 <= i < |ids| ensures ids[i] != Id(deployment, Pad4(n)) {
        assert numbers[i] == LastPart(ids[i]) && numbers[i] in numbers;
      }
    }
    GeneratedUniqueIff(ids, deployment);
  }

  lemma PadOne()
    ensures Pad4(1) == "0001"
  {
    assert Decimal(1) == "1" && "0" + "1" == "01" && "0" + "01" == "001" && "0" + "001" == "0001";
    assert ZeroPad("0001", 4) == "0001" && ZeroPad("001", 4) == "0001" && ZeroPad("01", 4) == "0001";
  }

  lemma ConcreteSuffixes()
    ensures TextMax(["foo", "0001", ""], "0000") == "foo"
    ensures Atoi("foo") == 0
  {
    assert ["foo", "0001", ""][..2] == ["foo", "0001"] && ["foo", "0001"][..1] == ["foo"] && ["foo"][..0] == [];
    assert TextMax([], "0000") == "0000" && TextMax(["foo"], "0000") == "foo";
    assert TextMax(["foo", "0001"], "0000") == "foo";
    assert !Digit("foo"[0]);
  }

  /** One id with a textual suffix, one with a number, one missing. */
  function MixedIds(): (ids: seq<string>)
    ensures |ids| == 3 && ids[1] == Id("d", "0001")
  {
    [Id("x", "foo"), Id("d", "0001"), ""]
  }

  lemma LastPartOfEmpty()
    ensures LastPart("") == ""
  {
  }

  lemma MixedIdsNumbers()
    ensures Numbers(MixedIds()) == ["foo", "0001", ""]
  {
    hide LastIndex, Id, LastPart;
    LastPartOfEmpty();
    LastPartOfId("x", "foo");
    LastPartOfId("d", "0001");
  }

  lemma MixedIdsBase()
    ensures BaseNumber(MixedIds()) == 0
  {
    hide MixedIds, Numbers, TextMax, Atoi;
    MixedIdsNumbers();
    ConcreteSuffixes();
  }

  lemma MixedIdsMissing()
    ensures Missing(MixedIds(), 3) == 1
  {
    var ids := MixedIds();
    assert Missing(ids, 1) == 0 && Missing(ids, 2) == 0;
  }

  /** Without that, generation can repeat a configured id: the suffix "foo" is textually
      greatest, reads as the number 0, and 0001 is handed out again. */
  lemma GeneratedCanCollide()
    ensures !GeneratedAreUnique(MixedIds(), "d")
  {
    hide Value, Decimal, ZeroPad, Pad4, NextId, LastIndex, BaseNumber, AssignedId, Missing, MixedIds;
    MixedIdsBase();
    MixedIdsMissing();
    PadOne();
    assert MixedIds()[1] == Id("d", Pad4(Add64(0, 1)));
    GeneratedUniqueIff(MixedIds(), "d");
  }
}
