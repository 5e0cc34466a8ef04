/**
 * `obscurePasswords` of the PSR-3 engine: `array_walk_recursive` over a copy of
 * the data, replacing every string leaf whose lower-cased key is a password key
 * and whose trimmed value is not empty by eight asterisks.
 */
module Masking {
  import opened Php

  const Mask := "********"

  const DefaultPasswordKeys: seq<string> :=
    ["password", "new_password", "old_password", "current_password"]

  /** The condition of the walk's callback for one leaf under key `k`. */
  predicate Qualifies(passwordKeys: seq<string>, k: Key, v: Value) {
    v.Str? && ToLower(KeyString(k)) in passwordKeys && Trim(v.s) != ""
  }

  function MaskLeaf(passwordKeys: seq<string>, e: Entry): Entry {
    if Qualifies(passwordKeys, e.key, e.val) then Entry(e.key, Str(Mask)) else e
  }

  function ObscurePasswords(passwordKeys: seq<string>, data: seq<Entry>): (r: seq<Entry>)
    ensures |r| == |data|
    ensures forall i :: 0 <= i < |data| ==> r[i].key == data[i].key && (r[i].val.Arr? <==> data[i].val.Arr?)
    decreases data, 1
  {
    if data == [] then []
    else [ObscureEntry(passwordKeys, data[0])] + ObscurePasswords(passwordKeys, data[1..])
  }

  function ObscureEntry(passwordKeys: seq<string>, e: Entry): (r: Entry)
    ensures r.key == e.key && (r.val.Arr? <==> e.val.Arr?)
    decreases e, 0
  {
    match e.val
    case Arr(es) => Entry(e.key, Arr(ObscurePasswords(passwordKeys, es)))
    case _ => MaskLeaf(passwordKeys, e)
  }

  /** The leaves `array_walk_recursive` visits, in its order (nested arrays are walked, never visited). */
  function Leaves(data: seq<Entry>): seq<Entry>
    decreases data, 1
  {
    if data == [] then [] else EntryLeaves(data[0]) + Leaves(data[1..])
  }

  function EntryLeaves(e: Entry): seq<Entry>
    decreases e, 0
  {
    match e.val
    case Arr(es) => Leaves(es)
    case _ => [e]
  }

  /** Two trees with the same keys at the same places and arrays exactly where the other has arrays. */
  predicate SameShape(a: seq<Entry>, b: seq<Entry>)
    decreases a, 1
  {
    |a| == |b| && (a != [] ==> SameEntryShape(a[0], b[0]) && SameShape(a[1..], b[1..]))
  }

  predicate SameEntryShape(x: Entry, y: Entry)
    decreases x, 0
  {
    x.key == y.key && (x.val.Arr? <==> y.val.Arr?) &&
    (x.val.Arr? ==> SameShape(x.val.entries, y.val.entries))
  }

  /** Masking keeps every key and the whole nesting structure. */
  lemma {:induction false} ObscureKeepsShape(passwordKeys: seq<string>, data: seq<Entry>)
    ensures SameShape(data, ObscurePasswords(passwordKeys, data))
    decreases data, 1
  {
    if data != [] {
      var r := ObscurePasswords(passwordKeys, data);
      assert r[0] == ObscureEntry(passwordKeys, data[0]) && r[1..] == ObscurePasswords(passwordKeys, data[1..]);
      ObscureEntryKeepsShape(passwordKeys, data[0]);
      ObscureKeepsShape(passwordKeys, data[1..]);
    }
  }

  lemma {:induction false} ObscureEntryKeepsShape(passwordKeys: seq<string>, e: Entry)
    ensures SameEntryShape(e, ObscureEntry(passwordKeys, e))
    decreases e, 0
  {
    if e.val.Arr? {
      ObscureKeepsShape(passwordKeys, e.val.entries);
    }
  }

  /**
   * Leaf by leaf, in walk order: a leaf becomes the mask exactly when it
   * qualifies, and is unchanged otherwise.
   */
  lemma {:induction false} ObscureLeaves(passwordKeys: seq<string>, data: seq<Entry>)
    ensures |Leaves(ObscurePasswords(passwordKeys, data))| == |Leaves(data)|
    ensures forall i :: 0 <= i < |Leaves(data)| ==>
      Leaves(ObscurePasswords(passwordKeys, data))[i] == MaskLeaf(passwordKeys, Leaves(data)[i])
    decreases data, 1
  {
    if data != [] {
      ObscureEntryLeaves(passwordKeys, data[0]);
      ObscureLeaves(passwordKeys, data[1..]);
      var r := ObscurePasswords(passwordKeys, data);
      assert r[0] == ObscureEntry(passwordKeys, data[0]) && r[1..] == ObscurePasswords(passwordKeys, data[1..]);
    }
  }

  lemma {:induction false} ObscureEntryLeaves(passwordKeys: seq<string>, e: Entry)
    ensures |EntryLeaves(ObscureEntry(passwordKeys, e))| == |EntryLeaves(e)|
    ensures forall i :: 0 <= i < |EntryLeaves(e)| ==>
      EntryLeaves(ObscureEntry(passwordKeys, e))[i] == MaskLeaf(passwordKeys, EntryLeaves(e)[i])
    decreases e, 0
  {
    if e.val.Arr? {
      ObscureLeaves(passwordKeys, e.val.entries);
    }
  }

  /** A mask is itself a qualifying value, so masking it again gives the mask. */
  lemma MaskLeafIdempotent(passwordKeys: seq<string>, e: Entry)
    ensures MaskLeaf(passwordKeys, MaskLeaf(passwordKeys, e)) == MaskLeaf(passwordKeys, e)
  {
    assert !IsTrimChar(Mask[0]);
  }

  /** Masking twice is masking once. */
  lemma {:induction false} ObscureIdempotent(passwordKeys: seq<string>, data: seq<Entry>)
    ensures ObscurePasswords(passwordKeys, ObscurePasswords(passwordKeys, data)) ==
            ObscurePasswords(passwordKeys, data)
    decreases data, 1
  {
    if data != [] {
      var r := ObscurePasswords(passwordKeys, data);
      ObscureEntryIdempotent(passwordKeys, data[0]);
      ObscureIdempotent(passwordKeys, data[1..]);
      assert r[0] == ObscureEntry(passwordKeys, data[0]) && r[1..] == ObscurePasswords(passwordKeys, data[1..]);
    }
  }

  lemma {:induction false} ObscureEntryIdempotent(passwordKeys: seq<string>, e: Entry)
    ensures ObscureEntry(passwordKeys, ObscureEntry(passwordKeys, e)) == ObscureEntry(passwordKeys, e)
    decreases e, 0
  {
    if e.val.Arr? {
      ObscureIdempotent(passwordKeys, e.val.entries);
    } else {
      MaskLeafIdempotent(passwordKeys, e);
    }
  }

  lemma MixedCasePasswordMasked()
    ensures ObscureEntry(DefaultPasswordKeys, Entry(StrKey("PassWord"), Str("s3cret"))) ==
            Entry(StrKey("PassWord"), Str(Mask))
  {
    assert ToLower("PassWord") == "password";
    assert !IsTrimChar("s3cret"[0]);
  }

  lemma NameKept()
    ensures ObscureEntry(DefaultPasswordKeys, Entry(StrKey("name"), Str("bob"))) == Entry(StrKey("name"), Str("bob"))
  {
    assert ToLower("name") == "name";
    assert "name" !in DefaultPasswordKeys;
  }

  lemma InnerArrayMasked()
    ensures ObscurePasswords(DefaultPasswordKeys, [Entry(StrKey("PassWord"), Str("s3cret")), Entry(StrKey("name"), Str("bob"))])
         == [Entry(StrKey("PassWord"), Str(Mask)), Entry(StrKey("name"), Str("bob"))]
  {
    var pw := Entry(StrKey("PassWord"), Str("s3cret"));
    var name := Entry(StrKey("name"), Str("bob"));
    MixedCasePasswordMasked();
    NameKept();
    assert [pw, name][1..] == [name];
    assert ObscurePasswords(DefaultPasswordKeys, [name]) == [name];
  }

  /** The key comparison is on the lower-cased key: "PassWord" is masked, and so is a nested one. */
  lemma MasksMixedCaseKeyInNestedArray()
    ensures ObscurePasswords(DefaultPasswordKeys,
              [Entry(StrKey("user"), Arr([Entry(StrKey("PassWord"), Str("s3cret")), Entry(StrKey("name"), Str("bob"))]))])
         == [Entry(StrKey("user"), Arr([Entry(StrKey("PassWord"), Str(Mask)), Entry(StrKey("name"), Str("bob"))]))]
  {
    InnerArrayMasked();
  }

  /** Blank passwords are left as they are. */
  lemma KeepsBlankPassword()
    ensures ObscurePasswords(DefaultPasswordKeys, [Entry(StrKey("password"), Str(" \t"))])
         == [Entry(StrKey("password"), Str(" \t"))]
  {
    assert Trim(" \t") == "";
  }
}
