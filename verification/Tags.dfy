/** Labels stored as "key=value" rows: internal/store/postgres/tags_model.go. */
module Tags {
  import opened Text

  type Labels = map<string, string>

  function Encode(key: string, value: string): string { key + "=" + value }

  /** Index of the first '=' or -1. */
  function FirstEq(s: string): (i: int)
    ensures -1 <= i < |s|
    ensures i >= 0 ==> s[i] == '=' && '=' !in s[..i]
    ensures i < 0 ==> '=' !in s
  {
    if s == "" then -1
    else if s[0] == '=' then 0
    else
      var i := FirstEq(s[1..]);
      assert i >= 0 ==> s[..i + 1] == [s[0]] + s[1..][..i];
      if i < 0 then -1 else i + 1
  }

  /** strings.SplitN(tag, "=", 2); None is the panic on a tag without "=". */
  function Decode(tag: string): (r: Option<(string, string)>)
    ensures r.Some? ==> '=' !in r.value.0 && Encode(r.value.0, r.value.1) == tag
  {
    var i := FirstEq(tag);
    if i < 0 then None else
    assert tag == tag[..i] + "=" + tag[i + 1..];
    Some((tag[..i], tag[i + 1..]))
  }

  predicate PlainKeys(labels: Labels) { forall k :: k in labels ==> '=' !in k }

  lemma DecodeEncode(key: string, value: string)
    ensures Decode(Encode(key, value)).Some?
    ensures '=' !in key ==> Decode(Encode(key, value)) == Some((key, value))
  {
    var tag := Encode(key, value);
    var i := FirstEq(tag);
    assert tag[|key|] == '=';
    if '=' !in key {
      assert forall j :: 0 <= j < |key| ==> tag[j] == key[j];
      assert i == |key|;
      assert tag[..i] == key && tag[i + 1..] == value;
    }
  }

  /** The map read back from a list of tags: a later tag overwrites an earlier one. */
  function DecodeAll(tags: seq<string>): Option<Labels> {
    if tags == [] then Some(map[])
    else
      match (DecodeAll(tags[..|tags| - 1]), Decode(tags[|tags| - 1]))
      case (Some(m), Some((k, v))) => Some(m[k := v])
      case _ => None
  }

  method TagsToLabelMap(tags: seq<string>) returns (labels: Option<Labels>)
    ensures labels == DecodeAll(tags)
  {
    var m: Labels := map[];
    for i := 0 to |tags|
      invariant DecodeAll(tags[..i]) == Some(m)
    {
      assert tags[..i + 1][..i] == tags[..i];
      match Decode(tags[i])
      case None =>
        DecodeAllFails(tags, i);
        return None;
      case Some((key, value)) =>
        m := m[key := value];
    }
    assert tags[..|tags|] == tags;
    labels := Some(m);
  }

  lemma {:induction false} DecodeAllFails(tags: seq<string>, i: nat)
    requires i < |tags| && Decode(tags[i]).None?
    ensures DecodeAll(tags).None?
  {
    if i < |tags| - 1 {
      assert tags[..|tags| - 1][i] == tags[i];
      DecodeAllFails(tags[..|tags| - 1], i);
    }
  }

  function TagSet(labels: Labels): set<string> {
    set k | k in labels :: Encode(k, labels[k])
  }

  predicate Distinct(tags: seq<string>) {
    forall i, j :: 0 <= i < j < |tags| ==> tags[i] != tags[j]
  }

  /** No two labels encode to the same row. */
  predicate NoClash(labels: Labels) {
    forall k, l :: k in labels && l in labels && k != l ==> Encode(k, labels[k]) != Encode(l, labels[l])
  }

  lemma PlainKeysDoNotClash(labels: Labels)
    requires PlainKeys(labels)
    ensures NoClash(labels)
  {
    forall k, l | k in labels && l in labels && k != l
      ensures Encode(k, labels[k]) != Encode(l, labels[l])
    {
      DecodeEncode(k, labels[k]);
      DecodeEncode(l, labels[l]);
    }
  }

  lemma OneMoreTag(init: seq<string>, labels: Labels, key: string)
    requires NoClash(labels) && key in labels
    ensures (map k | k in labels && Encode(k, labels[k]) in init :: labels[k])[key := labels[key]]
      == map k | k in labels && Encode(k, labels[k]) in init + [Encode(key, labels[key])] :: labels[k]
  {
    hide Encode;
  }

  /** Any list of distinct tags decodes to exactly the pairs its tags decode to, if these
      have distinct keys; so the order the rows come back in does not matter. */
  lemma {:induction false} DecodeAllIs(tags: seq<string>, labels: Labels)
    requires Distinct(tags) && PlainKeys(labels)
    requires forall t :: t in tags ==> t in TagSet(labels)
    ensures DecodeAll(tags) == Some(map k | k in labels && Encode(k, labels[k]) in tags :: labels[k])
  {
    var kept := map k | k in labels && Encode(k, labels[k]) in tags :: labels[k];
    if tags == [] {
      assert kept == map[];
    } else {
      var init, last := tags[..|tags| - 1], tags[|tags| - 1];
      assert tags == init + [last];
      DecodeAllIs(init, labels);
      assert last in tags;
      var key :| key in labels && last == Encode(key, labels[key]);
      DecodeEncode(key, labels[key]);
      PlainKeysDoNotClash(labels);
      var before := map k | k in labels && Encode(k, labels[k]) in init :: labels[k];
      assert DecodeAll(tags) == Some(before[key := labels[key]]);
      OneMoreTag(init, labels, key);
    }
  }

  lemma {:induction false} DecodedKeysArePlain(tags: seq<string>)
    ensures DecodeAll(tags).Some? ==> PlainKeys(DecodeAll(tags).value)
  {
    if tags != [] {
      DecodedKeysArePlain(tags[..|tags| - 1]);
    }
  }

  /** The storage round trip, exactly: labels survive being written and read back, in
      whatever order the rows are returned, if and only if no key contains "=". Values may. */
  lemma LabelRoundTrip(labels: Labels, rows: seq<string>)
    requires Distinct(rows) && (set t | t in rows) == TagSet(labels)
    ensures DecodeAll(rows) == Some(labels) <==> PlainKeys(labels)
  {
    if PlainKeys(labels) {
      forall t | t in rows ensures t in TagSet(labels) {
        assert t in (set x | x in rows);
      }
      DecodeAllIs(rows, labels);
      forall k | k in labels ensures Encode(k, labels[k]) in rows {
        assert Encode(k, labels[k]) in TagSet(labels);
        assert Encode(k, labels[k]) in (set x | x in rows);
      }
      assert labels == map k | k in labels && Encode(k, labels[k]) in rows :: labels[k];
    } else {
      DecodedKeysArePlain(rows);
    }
  }

  /** A tag table with its UNIQUE (id, tag) constraint. */
  class TagTable {
    var rows: set<(nat, string)>

    constructor ()
      ensures rows == {}
    {
      rows := {};
    }

    function TagsOf(id: nat): set<string>
      reads this
    {
      set r | r in rows && r.0 == id :: r.1
    }

    /** Replaces the tags of one id. A clash violates the constraint, and the enclosing
        transaction then leaves the table as it was. */
    method SetTags(id: nat, labels: Labels) returns (ok: bool)
      modifies this
      ensures ok <==> NoClash(labels)
      ensures ok ==> TagsOf(id) == TagSet(labels)
      ensures ok ==> forall other :: other != id ==> TagsOf(other) == old(TagsOf(other))
      ensures !ok ==> rows == old(rows)
    {
      var kept := set r | r in rows && r.0 != id;
      var added: set<string> := {};
      var todo := labels.Keys;
      while todo != {}
        invariant todo <= labels.Keys
        invariant added == set k | k in labels && k !in todo :: Encode(k, labels[k])
        invariant forall k, l :: k in labels && l in labels && k !in todo && l !in todo && k != l ==>
                    Encode(k, labels[k]) != Encode(l, labels[l])
        decreases |todo|
      {
        var key :| key in todo;
        var tag := Encode(key, labels[key]);
        if tag in added {
          return false;
        }
        added, todo := added + {tag}, todo - {key};
      }
      rows := kept + set t | t in added :: (id, t);
      assert forall other, t :: other != id ==> ((other, t) in rows <==> (other, t) in old(rows));
      assert TagsOf(id) == added by {
        assert forall t :: t in added ==> (id, t) in rows;
      }
      ok := true;
    }

    /** Rows come back in no particular order. */
    method ReadTags(id: nat) returns (tags: seq<string>)
      ensures Distinct(tags) && (set t | t in tags) == TagsOf(id)
    {
      var todo := TagsOf(id);
      tags := [];
      while todo != {}
        invariant todo <= TagsOf(id)
        invariant Distinct(tags) && (set t | t in tags) == TagsOf(id) - todo
        decreases |todo|
      {
        var t :| t in todo;
        assert t !in (set x | x in tags);
        assert (set x | x in tags + [t]) == (set x | x in tags) + {t};
        tags, todo := tags + [t], todo - {t};
      }
    }
  }
}
