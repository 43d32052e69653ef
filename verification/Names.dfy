/** Release and resource names: modules/utils.go. */
module Names {
  import opened Text

  const MAX_NAME_LIMIT := 63
  const RESOURCE_NAME_HASH_LEN := 8
  const RANDOM_HASH_LEN := 6

  predicate HexDigit(c: char) { Digit(c) || 'a' <= c <= 'f' }

  /** What is assumed of a digest printed in hex: its length and its alphabet. */
  ghost predicate HexDigest(hash: string -> string, len: nat) {
    forall s :: |hash(s)| == len && forall i :: 0 <= i < len ==> HexDigit(hash(s)[i])
  }

  // ---------------------------------------------------------------- SafeName

  /** None is the run-time panic of a slice whose end is negative. */
  function SafeName(name: string, suffix: string, maxLen: int, sha256: string -> string): Option<string>
    requires |sha256(TrimSuffix(name, suffix))| == 64
  {
    var base := TrimSuffix(name, suffix);
    if |base| <= maxLen - |suffix| then
      Some(base + suffix)
    else
      var hashed := "-" + sha256(base)[..RANDOM_HASH_LEN] + suffix;
      var truncLen := maxLen - |hashed|;
      if truncLen < 0 then None
      else Some(Trim(base[..truncLen], '-') + hashed)
  }

  /** A panic needs both: a name that must be cut, and no room for the hash. */
  lemma SafeNamePanics(name: string, suffix: string, maxLen: int, sha256: string -> string)
    requires |sha256(TrimSuffix(name, suffix))| == 64
    ensures SafeName(name, suffix, maxLen, sha256).None?
       <==> maxLen < |suffix| + 7 && maxLen < |TrimSuffix(name, suffix)| + |suffix|
  {
    var hashed := "-" + sha256(TrimSuffix(name, suffix))[..RANDOM_HASH_LEN] + suffix;
    assert |hashed| == |suffix| + 7;
  }

  /** A piece of s without the hyphens around it. */
  predicate PieceBetweenHyphens(s: string, cut: string) {
    exists i, j | 0 <= i <= j <= |s| :: IsPiece(s, i, j, cut)
  }

  predicate IsPiece(s: string, i: int, j: int, cut: string)
    requires 0 <= i <= j <= |s|
  {
    && cut == s[i..j]
    && (forall k :: 0 <= k < i ==> s[k] == '-') && (forall k :: j <= k < |s| ==> s[k] == '-')
    && (cut != "" ==> cut[0] != '-' && cut[|cut| - 1] != '-')
  }

  lemma TrimIsPiece(s: string)
    ensures PieceBetweenHyphens(s, Trim(s, '-'))
  {
    hide TrimLeft, TrimRight;
    var left := TrimLeft(s, '-');
    var cut := Trim(s, '-');
    TrimsRight(s, |s| - |left|, left, cut);
  }

  lemma TrimsRight(s: string, i: nat, left: string, cut: string)
    requires i <= |s| && left == s[i..] && cut == TrimRight(left, '-')
    requires forall k :: 0 <= k < i ==> s[k] == '-'
    requires cut != "" ==> cut[0] != '-'
    ensures PieceBetweenHyphens(s, cut)
  {
    hide TrimRight;
    var j := i + |cut|;
    assert cut == left[..|cut|];
    forall k | j <= k < |s| ensures s[k] == '-' {
      assert s[k] == left[k - i];
    }
    assert IsPiece(s, i, j, cut);
  }

  /** Every name produced fits and ends in the suffix. One that has room is kept as it is, with
      the suffix once; one that has not is cut to the room left by "-<6 hex>" and the suffix,
      and loses the hyphens at either end. */
  lemma SafeNameShape(name: string, suffix: string, maxLen: int, sha256: string -> string)
    requires |sha256(TrimSuffix(name, suffix))| == 64
    ensures var r, base := SafeName(name, suffix, maxLen, sha256), TrimSuffix(name, suffix);
      r.Some? ==>
        && |r.value| <= maxLen
        && HasSuffix(r.value, suffix)
        && (|base| + |suffix| <= maxLen ==> r.value == base + suffix && (HasSuffix(name, suffix) ==> r.value == name))
        && (|base| + |suffix| > maxLen ==>
              && 0 <= maxLen - 7 - |suffix| <= |base|
              && exists cut: string ::
                && r.value == cut + "-" + sha256(base)[..RANDOM_HASH_LEN] + suffix
                && PieceBetweenHyphens(base[..maxLen - 7 - |suffix|], cut))
  {
    hide Trim, PieceBetweenHyphens;
    var base := TrimSuffix(name, suffix);
    var r := SafeName(name, suffix, maxLen, sha256);
    if r.Some? && |base| > maxLen - |suffix| {
      var hash := sha256(base)[..RANDOM_HASH_LEN];
      assert |"-" + hash + suffix| == 7 + |suffix|;
      var cut := Trim(base[..maxLen - 7 - |suffix|], '-');
      assert r.value == cut + "-" + hash + suffix;
      TrimIsPiece(base[..maxLen - 7 - |suffix|]);
      EndsInSuffix(cut + "-" + hash, suffix);
    } else {
      EndsInSuffix(base, suffix);
    }
  }

  lemma EndsInSuffix(s: string, suffix: string)
    ensures HasSuffix(s + suffix, suffix)
  {
  }

  /** A produced name is a fixed point, whichever branch produced it. */
  lemma SafeNameIdempotent(name: string, suffix: string, maxLen: int, sha256: string -> string)
    requires HexDigest(sha256, 64)
    ensures var r := SafeName(name, suffix, maxLen, sha256);
      r.Some? ==> SafeName(r.value, suffix, maxLen, sha256) == r
  {
    SafeNameShape(name, suffix, maxLen, sha256);
  }

  // -------------------------------------------------------------------- slug

  predicate WordChar(c: char) { Digit(c) || 'a' <= c <= 'z' || 'A' <= c <= 'Z' || c == '_' }

  /** Length of the leading run of c. */
  function Run(s: string, c: char): (n: nat)
    ensures n <= |s|
    ensures forall i :: 0 <= i < n ==> s[i] == c
    ensures n < |s| ==> s[n] != c
  {
    if s != "" && s[0] == c then 1 + Run(s[1..], c) else 0
  }

  /** The regular expression c+ replaced by "-" everywhere. */
  function ReplaceRuns(s: string, c: char): string
    decreases |s|
  {
    if s == "" then ""
    else if s[0] == c then "-" + ReplaceRuns(s[Run(s, c)..], c)
    else [s[0]] + ReplaceRuns(s[1..], c)
  }

  /** The regular expression [^\w -]+ replaced by the empty string. */
  function KeepWord(s: string): string {
    if s == "" then ""
    else if WordChar(s[0]) || s[0] == ' ' || s[0] == '-' then [s[0]] + KeepWord(s[1..])
    else KeepWord(s[1..])
  }

  function Slug(s: string): string {
    ToLower(KeepWord(ReplaceRuns(ReplaceRuns(s, '_'), ' ')))
  }

  predicate SlugChar(c: char) { Digit(c) || 'a' <= c <= 'z' || c == '-' }

  predicate IsSlug(s: string) { forall i :: 0 <= i < |s| ==> SlugChar(s[i]) }

  lemma {:induction false} ReplaceRunsRemoves(s: string, c: char)
    requires c != '-'
    ensures forall x :: x in ReplaceRuns(s, c) ==> x != c && (x in s || x == '-')
    decreases |s|
  {
    if s == "" {
    } else if s[0] == c {
      ReplaceRunsRemoves(s[Run(s, c)..], c);
    } else {
      ReplaceRunsRemoves(s[1..], c);
    }
  }

  lemma {:induction false} KeepWordKeeps(s: string)
    ensures forall x :: x in KeepWord(s) ==> x in s && (WordChar(x) || x == ' ' || x == '-')
  {
    if s != "" {
      KeepWordKeeps(s[1..]);
    }
  }

  /** Whatever the input, only lower-case letters, digits and hyphens come out. */
  lemma SlugIsSlug(s: string)
    ensures IsSlug(Slug(s))
  {
    var a := ReplaceRuns(s, '_');
    var b := ReplaceRuns(a, ' ');
    var c := KeepWord(b);
    ReplaceRunsRemoves(s, '_');
    ReplaceRunsRemoves(a, ' ');
    KeepWordKeeps(b);
    forall i | 0 <= i < |c| ensures SlugChar(ToLower(c)[i]) {
      assert c[i] in c;
    }
  }

  lemma {:induction false} SlugStepsFix(s: string)
    requires IsSlug(s)
    ensures ReplaceRuns(s, '_') == s && ReplaceRuns(s, ' ') == s && KeepWord(s) == s && ToLower(s) == s
  {
    if s != "" {
      assert SlugChar(s[0]);
      assert IsSlug(s[1..]);
      SlugStepsFix(s[1..]);
      assert s == [s[0]] + s[1..];
    }
  }

  /** A slug is left alone; with SlugIsSlug, slugging twice is slugging once. */
  lemma SlugFixesSlugs(s: string)
    requires IsSlug(s)
    ensures Slug(s) == s
  {
    SlugStepsFix(s);
  }

  lemma SlugIdempotent(s: string)
    ensures Slug(Slug(s)) == Slug(s)
  {
    SlugIsSlug(s);
    SlugFixesSlugs(Slug(s));
  }

  /** No run of c crosses from s to t. */
  predicate Apart(s: string, t: string, c: char) { s == "" || t == "" || s[|s| - 1] != c || t[0] != c }

  lemma RunOfConcat(s: string, t: string, c: char)
    requires s != "" && Apart(s, t, c)
    ensures Run(s + t, c) == Run(s, c)
  {
    var n, m := Run(s, c), Run(s + t, c);
    assert forall i :: 0 <= i < |s| ==> (s + t)[i] == s[i];
    if t != "" {
      assert (s + t)[|s|] == t[0];
    } else {
      assert s + t == s;
    }
  }

  lemma {:induction false} ReplaceRunsConcat(s: string, t: string, c: char)
    requires Apart(s, t, c)
    ensures ReplaceRuns(s + t, c) == ReplaceRuns(s, c) + ReplaceRuns(t, c)
    decreases |s|
  {
    hide Run;
    if s == "" {
      assert s + t == t;
    } else if s[0] == c {
      RunOfConcat(s, t, c);
      var n := Run(s, c);
      assert (s + t)[n..] == s[n..] + t;
      ReplaceRunsConcat(s[n..], t, c);
    } else {
      assert (s + t)[0] == s[0] && (s + t)[1..] == s[1..] + t;
      ReplaceRunsConcat(s[1..], t, c);
    }
  }

  /** Both ends of a string stay what they are, but for turning c into a hyphen. */
  lemma {:induction false} ReplaceRunsEnds(s: string, c: char)
    requires s != "" && c != '-'
    ensures var r := ReplaceRuns(s, c);
      r != "" && r[0] == (if s[0] == c then '-' else s[0]) && r[|r| - 1] == (if s[|s| - 1] == c then '-' else s[|s| - 1])
    decreases |s|
  {
    hide Run;
    if s[0] == c {
      var n := Run(s, c);
      if n < |s| {
        ReplaceRunsEnds(s[n..], c);
      } else {
        assert s[|s| - 1] == c;
        assert ReplaceRuns(s[n..], c) == "";
      }
    } else if |s| > 1 {
      ReplaceRunsEnds(s[1..], c);
    } else {
      assert ReplaceRuns(s[1..], c) == "";
    }
  }

  lemma {:induction false} KeepWordConcat(s: string, t: string)
    ensures KeepWord(s + t) == KeepWord(s) + KeepWord(t)
  {
    if s == "" {
      assert s + t == t;
    } else {
      assert (s + t)[0] == s[0] && (s + t)[1..] == s[1..] + t;
      KeepWordConcat(s[1..], t);
    }
  }

  lemma ToLowerConcat(s: string, t: string)
    ensures ToLower(s + t) == ToLower(s) + ToLower(t)
  {
    forall i | 0 <= i < |s + t| ensures ToLower(s + t)[i] == (ToLower(s) + ToLower(t))[i] {
    }
  }

  /** Slugging works piece by piece, wherever no run of underscores or of spaces is cut. */
  lemma SlugConcat(s: string, t: string)
    requires Apart(s, t, '_') && Apart(s, t, ' ')
    ensures Slug(s + t) == Slug(s) + Slug(t)
  {
    ReplaceRunsConcat(s, t, '_');
    var a, b := ReplaceRuns(s, '_'), ReplaceRuns(t, '_');
    if s != "" { ReplaceRunsEnds(s, '_'); }
    if t != "" { ReplaceRunsEnds(t, '_'); }
    ReplaceRunsConcat(a, b, ' ');
    KeepWordConcat(ReplaceRuns(a, ' '), ReplaceRuns(b, ' '));
    ToLowerConcat(KeepWord(ReplaceRuns(a, ' ')), KeepWord(ReplaceRuns(b, ' ')));
  }

  predicate AllOf(s: string, c: char) { s != "" && forall i :: 0 <= i < |s| ==> s[i] == c }

  /** The pieces: a run of underscores or of spaces is one hyphen, a letter is lower-cased, a
      digit or a hyphen stays, and anything else goes. With SlugConcat that is every string. */
  lemma SlugPieces(s: string, c: char)
    requires s == [c] || AllOf(s, c)
    ensures c == '_' || c == ' ' ==> Slug(s) == "-"
    ensures s == [c] && ('a' <= c <= 'z' || '0' <= c <= '9' || c == '-') ==> Slug(s) == s
    ensures s == [c] && 'A' <= c <= 'Z' ==> Slug(s) == [c - 'A' + 'a']
    ensures s == [c] && c != '_' && c != ' ' && c != '-' && !('a' <= c <= 'z' || 'A' <= c <= 'Z' || '0' <= c <= '9') ==> Slug(s) == ""
  {
    if c == '_' {
      WholeRun(s, c);
      assert ReplaceRuns("-", ' ') == "-";
      HyphenStays();
    } else if c == ' ' {
      NoneOf(s, '_');
      WholeRun(s, c);
      HyphenStays();
    } else {
      NoneOf(s, '_');
      NoneOf(s, ' ');
    }
  }

  lemma WholeRun(s: string, c: char)
    requires AllOf(s, c)
    ensures ReplaceRuns(s, c) == "-"
  {
    var n := Run(s, c);
    assert n == |s|;
    assert s[n..] == "";
  }

  lemma HyphenStays()
    ensures KeepWord("-") == "-" && ToLower("-") == "-"
  {
    assert KeepWord("") == "" && ToLower("") == "";
    assert "-"[1..] == "";
  }

  lemma {:induction false} NoneOf(s: string, c: char)
    requires forall i :: 0 <= i < |s| ==> s[i] != c
    ensures ReplaceRuns(s, c) == s
  {
    if s != "" {
      NoneOf(s[1..], c);
      assert s == [s[0]] + s[1..];
    }
  }

  lemma SlugOfHyphen()
    ensures Slug("-") == "-"
  {
    SlugPieces("-", '-');
  }

  /** Slugging distributes over joining with a hyphen, for any two strings. */
  lemma SlugJoin(s: string, t: string)
    ensures Slug(s + "-" + t) == Slug(s) + "-" + Slug(t)
  {
    hide Slug;
    SlugConcat(s + "-", t);
    SlugConcat(s, "-");
    SlugOfHyphen();
  }

  lemma SlugJoin3(s: string, t: string, u: string)
    ensures Slug(s + "-" + t + "-" + u) == Slug(s) + "-" + Slug(t) + "-" + Slug(u)
  {
    SlugJoin(s + "-" + t, u);
    SlugJoin(s, t);
  }

  // ------------------------------------------------------- BuildResourceName

  function Limit(limit: int): int { if limit == 0 then MAX_NAME_LIMIT else limit }

  /** None is the run-time panic of a slice whose end is negative. */
  function BuildResourceName(kind: string, name: string, project: string, limit: int, md5: string -> string): Option<string>
    requires |md5(Slug(name))| == 32
  {
    var slugged := Slug(name);
    var room := Limit(limit) - |Slug(project + "-" + name + "-" + kind)|;
    if room >= 0 then
      Some(Slug(project + "-" + slugged + "-" + kind))
    else
      var end := |slugged| + room - (RESOURCE_NAME_HASH_LEN + 1);
      if end < 0 then None
      else Some(Slug(project + "-" + (slugged[..end] + "-" + md5(slugged)[..RESOURCE_NAME_HASH_LEN]) + "-" + kind))
  }

  /** Does slug(project-name-kind) exceed the limit? */
  predicate Truncates(kind: string, name: string, project: string, limit: int) {
    |Slug(project)| + |Slug(name)| + |Slug(kind)| + 2 > Limit(limit)
  }

  lemma HashIsSlug(hash: string, end: nat)
    requires end <= |hash| && forall i :: 0 <= i < |hash| ==> HexDigit(hash[i])
    ensures IsSlug(hash[..end])
  {
    forall i | 0 <= i < end ensures SlugChar(hash[..end][i]) {
      assert HexDigit(hash[i]);
    }
  }

  /** Slugging the assembled name changes neither the cut name nor the hash inside it. */
  lemma SlugOfAssembled(project: string, cut: string, hash: string, kind: string)
    requires IsSlug(cut) && IsSlug(hash)
    ensures Slug(project + "-" + (cut + "-" + hash) + "-" + kind) == Slug(project) + "-" + (cut + "-" + hash) + "-" + Slug(kind)
  {
    SlugJoin3(project, cut + "-" + hash, kind);
    SlugJoin(cut, hash);
    SlugFixesSlugs(cut);
    SlugFixesSlugs(hash);
  }

  /** When slug(project-name-kind) fits, it is the result. */
  lemma BuildResourceNameFits(kind: string, name: string, project: string, limit: int, md5: string -> string)
    requires HexDigest(md5, 32) && !Truncates(kind, name, project, limit)
    ensures BuildResourceName(kind, name, project, limit, md5) == Some(Slug(project + "-" + name + "-" + kind))
    ensures |Slug(project + "-" + name + "-" + kind)| <= Limit(limit)
  {
    SlugJoin3(project, name, kind);
    SlugJoin3(project, Slug(name), kind);
    SlugIdempotent(name);
  }

  /** When it does not, the result has exactly `limit` characters, or there is a panic: the
      limit leaves no room for the project, the kind, the hash and three hyphens. */
  lemma BuildResourceNameCuts(kind: string, name: string, project: string, limit: int, md5: string -> string)
    requires HexDigest(md5, 32) && Truncates(kind, name, project, limit)
    ensures var r := BuildResourceName(kind, name, project, limit, md5);
      && (r.None? <==> Limit(limit) < |Slug(project)| + |Slug(kind)| + 11)
      && (r.Some? ==>
            && |r.value| == Limit(limit)
            && exists end :: 0 <= end <= |Slug(name)|
                 && r.value == Slug(project) + "-" + (Slug(name)[..end] + "-" + md5(Slug(name))[..8]) + "-" + Slug(kind))
  {
    SlugJoin3(project, name, kind);
    var r := BuildResourceName(kind, name, project, limit, md5);
    var end := |Slug(name)| + (Limit(limit) - |Slug(project + "-" + name + "-" + kind)|) - 9;
    if end >= 0 {
      SlugIsSlug(name);
      HashIsSlug(md5(Slug(name)), 8);
      SlugOfAssembled(project, Slug(name)[..end], md5(Slug(name))[..8], kind);
    }
  }

  /** On every input that does not panic the result is a slug within the limit. */
  lemma BuildResourceNameBounded(kind: string, name: string, project: string, limit: int, md5: string -> string)
    requires HexDigest(md5, 32)
    ensures var r := BuildResourceName(kind, name, project, limit, md5);
      r.Some? ==> |r.value| <= Limit(limit) && IsSlug(r.value)
  {
    if Truncates(kind, name, project, limit) {
      BuildResourceNameCuts(kind, name, project, limit, md5);
    } else {
      BuildResourceNameFits(kind, name, project, limit, md5);
    }
    SlugIsSlug(project + "-" + Slug(name) + "-" + kind);
    var end := |Slug(name)| + (Limit(limit) - |Slug(project + "-" + name + "-" + kind)|) - 9;
    if 0 <= end <= |Slug(name)| {
      SlugIsSlug(project + "-" + (Slug(name)[..end] + "-" + md5(Slug(name))[..8]) + "-" + kind);
    }
  }
}
