/** JSON trees. An object is the list of its entries in the order `Object.entries` yields them. */
module Json {

  datatype Json =
    | Null
    | Bool(flag: bool)
    | Num(number: real)
    | Str(text: string)
    | Arr(items: seq<Json>)
    | Obj(entries: seq<Entry>)

  datatype Entry = Entry(key: string, value: Json)

  predicate DistinctKeys(entries: seq<Entry>) {
    forall i, j | 0 <= i < j < |entries| :: entries[i].key != entries[j].key
  }

  /** Index of the entry with this key, or the number of entries when there is none. */
  function IndexOf(entries: seq<Entry>, key: string): (i: nat)
    ensures i <= |entries|
    ensures i < |entries| ==> entries[i].key == key
    ensures forall k | 0 <= k < i :: entries[k].key != key
  {
    if entries == [] then 0
    else if entries[0].key == key then 0
    else 1 + IndexOf(entries[1..], key)
  }

  /** `out[key] = value`: an existing key keeps its position. */
  function Put(entries: seq<Entry>, key: string, value: Json): seq<Entry> {
    var i := IndexOf(entries, key);
    if i < |entries| then entries[i := Entry(key, value)] else entries + [Entry(key, value)]
  }
}

/** Rewriting of the keys of a response body from snake case to camel case. */
module KeyNormaliser {
  import opened Json
  import opened Wrappers

  predicate LowerAscii(c: char) { 'a' <= c <= 'z' }

  function UpperAscii(c: char): char
    requires LowerAscii(c)
  {
    (c as int - 32) as char
  }

  /** The global, left-to-right, non-overlapping replacement of `_[a-z]`. */
  function SnakeToCamelKey(key: string): string {
    if key == "" then ""
    else if |key| >= 2 && key[0] == '_' && LowerAscii(key[1]) then
      [UpperAscii(key[1])] + SnakeToCamelKey(key[2..])
    else
      [key[0]] + SnakeToCamelKey(key[1..])
  }

  /** No underscore is followed by a lower-case letter. */
  predicate Camel(key: string) {
    forall i | 0 <= i < |key| - 1 :: key[i] == '_' ==> !LowerAscii(key[i + 1])
  }

  lemma {:induction false} FirstCharacter(key: string)
    requires key != ""
    ensures SnakeToCamelKey(key) != ""
    ensures LowerAscii(SnakeToCamelKey(key)[0]) ==> SnakeToCamelKey(key)[0] == key[0]
  {
  }

  /** The rewritten key never needs rewriting again. */
  lemma {:induction false} RewrittenKeyIsCamel(key: string)
    ensures Camel(SnakeToCamelKey(key))
  {
    if key == "" {
    } else {
      var pair := |key| >= 2 && key[0] == '_' && LowerAscii(key[1]);
      var head := if pair then UpperAscii(key[1]) else key[0];
      var rest := if pair then key[2..] else key[1..];
      RewrittenKeyIsCamel(rest);
      if rest != "" { FirstCharacter(rest); }
      var tail := SnakeToCamelKey(rest);
      assert SnakeToCamelKey(key) == [head] + tail;
      forall i | 0 <= i < |[head] + tail| - 1 && ([head] + tail)[i] == '_'
        ensures !LowerAscii(([head] + tail)[i + 1])
      {
        if i > 0 { assert tail[i - 1] == '_' && tail[i] == ([head] + tail)[i + 1]; }
      }
    }
  }

  /** Each underscore before a lower-case letter goes, the letter becomes the capital at the same place of
      the alphabet, and what stands before and after is rewritten as if it stood alone. With what is said
      of keys in camel case, which have no such underscore, this determines every rewritten key. */
  lemma {:induction false} RewritesOnePair(before: string, c: char, capital: char, after: string)
    requires 'a' <= c <= 'z' && 'A' <= capital <= 'Z'
    requires capital as int - 'A' as int == c as int - 'a' as int
    ensures SnakeToCamelKey(before + ['_', c] + after)
         == SnakeToCamelKey(before) + [capital] + SnakeToCamelKey(after)
    decreases |before|
  {
    var key := before + ['_', c] + after;
    if before == "" {
      PairFirst(key, c, capital, after);
      assert SnakeToCamelKey(key) == "" + [capital] + SnakeToCamelKey(after);
    } else {
      var pair := |before| >= 2 && before[0] == '_' && LowerAscii(before[1]);
      var n := if pair then 2 else 1;
      var head := if pair then UpperAscii(before[1]) else before[0];
      var rest := before[n..];
      RewritesOnePair(rest, c, capital, after);
      assert key[n..] == rest + ['_', c] + after;
      assert SnakeToCamelKey(before) == [head] + SnakeToCamelKey(rest);
      assert SnakeToCamelKey(key) == [head] + SnakeToCamelKey(key[n..]);
      assert SnakeToCamelKey(key) == SnakeToCamelKey(before) + [capital] + SnakeToCamelKey(after);
    }
  }

  lemma {:induction false} PairFirst(key: string, c: char, capital: char, after: string)
    requires 'a' <= c <= 'z' && 'A' <= capital <= 'Z'
    requires capital as int - 'A' as int == c as int - 'a' as int && key == ['_', c] + after
    ensures SnakeToCamelKey(key) == [capital] + SnakeToCamelKey(after)
  {
    assert key[2..] == after;
    assert UpperAscii(c) == capital;
  }

  /** A key is left alone exactly when it is already in camel case. */
  lemma {:induction false} KeptExactlyWhenCamel(key: string)
    ensures SnakeToCamelKey(key) == key <==> Camel(key)
  {
    RewrittenKeyIsCamel(key);
    if Camel(key) { CamelKeyKept(key); }
  }

  lemma {:induction false} CamelKeyKept(key: string)
    requires Camel(key)
    ensures SnakeToCamelKey(key) == key
  {
    if key == "" {
    } else {
      forall i | 0 <= i < |key[1..]| - 1 && key[1..][i] == '_'
        ensures !LowerAscii(key[1..][i + 1])
      {
        assert key[i + 1] == '_';
      }
      CamelKeyKept(key[1..]);
    }
  }

  /** The name every object inherits; an own key of this name hides what is inherited. */
  const CONSTRUCTOR := "constructor"

  /** An object with an own key `constructor` fails the test `value.constructor === Object`, because
      no parsed value is the function `Object`. */
  predicate HidesConstructor(entries: seq<Entry>) {
    IndexOf(entries, CONSTRUCTOR) < |entries|
  }

  /** An object that hides its constructor is returned as it is, with everything below it. */
  function CamelTree(value: Json): Json
    decreases value, 1
  {
    match value
    case Arr(items) => Arr(CamelItems(items))
    case Obj(entries) => if HidesConstructor(entries) then value else Obj(CamelEntries(entries))
    case _ => value
  }

  function CamelItems(items: seq<Json>): (out: seq<Json>)
    ensures |out| == |items|
    decreases items, 0
  {
    if items == [] then []
    else CamelItems(items[..|items| - 1]) + [CamelTree(items[|items| - 1])]
  }

  function CamelEntries(entries: seq<Entry>): seq<Entry>
    decreases entries, 0
  {
    if entries == [] then []
    else
      var e := entries[|entries| - 1];
      Put(CamelEntries(entries[..|entries| - 1]), SnakeToCamelKey(e.key), CamelTree(e.value))
  }

  /** The recursive rewriting, filling a fresh list or object in a loop. */
  method KeysToCamel(value: Json) returns (result: Json)
    ensures result == CamelTree(value)
    decreases value
  {
    match value {
      case Arr(items) =>
        var out: seq<Json> := [];
        for i := 0 to |items|
          invariant out == CamelItems(items[..i])
        {
          var v := KeysToCamel(items[i]);
          assert items[..i + 1][..i] == items[..i];
          out := out + [v];
        }
        assert items[..|items|] == items;
        result := Arr(out);
      case Obj(entries) =>
        if HidesConstructor(entries) { return value; }
        var out: seq<Entry> := [];
        for i := 0 to |entries|
          invariant out == CamelEntries(entries[..i])
        {
          var v := KeysToCamel(entries[i].value);
          assert entries[..i + 1][..i] == entries[..i];
          out := Put(out, SnakeToCamelKey(entries[i].key), v);
        }
        assert entries[..|entries|] == entries;
        result := Obj(out);
      case _ =>
        result := value;
    }
  }

  /** Every object in the tree hides its constructor or has distinct camel-case keys. Below an object
      that hides its constructor anything goes. */
  predicate Normal(value: Json) {
    match value
    case Arr(items) => forall i | 0 <= i < |items| :: Normal(items[i])
    case Obj(entries) => HidesConstructor(entries) || NormalEntries(entries)
    case _ => true
  }

  predicate NormalEntries(entries: seq<Entry>) {
    && DistinctKeys(entries)
    && forall i | 0 <= i < |entries| :: Camel(entries[i].key) && Normal(entries[i].value)
  }

  lemma {:induction false} TreeIsNormal(value: Json)
    ensures Normal(CamelTree(value))
    decreases value, 1
  {
    match value
    case Arr(items) => ItemsAreNormal(items);
    case Obj(entries) => if !HidesConstructor(entries) { EntriesAreNormal(entries); }
    case _ =>
  }

  lemma {:induction false} ItemsAreNormal(items: seq<Json>)
    ensures Normal(Arr(CamelItems(items)))
    decreases items, 0
  {
    if items == [] {
    } else {
      ItemsAreNormal(items[..|items| - 1]);
      TreeIsNormal(items[|items| - 1]);
    }
  }

  lemma {:induction false} EntriesAreNormal(entries: seq<Entry>)
    ensures NormalEntries(CamelEntries(entries))
    decreases entries, 0
  {
    if entries == [] {
    } else {
      EntriesAreNormal(entries[..|entries| - 1]);
      var e := entries[|entries| - 1];
      TreeIsNormal(e.value);
      RewrittenKeyIsCamel(e.key);
    }
  }

  lemma {:induction false} NormalIsFixed(value: Json)
    requires Normal(value)
    ensures CamelTree(value) == value
    decreases value, 1
  {
    match value
    case Arr(items) => NormalItemsFixed(items);
    case Obj(entries) => if !HidesConstructor(entries) { NormalEntriesFixed(entries); }
    case _ =>
  }

  lemma {:induction false} NormalItemsFixed(items: seq<Json>)
    requires Normal(Arr(items))
    ensures CamelItems(items) == items
    decreases items, 0
  {
    if items == [] {
    } else {
      NormalItemsFixed(items[..|items| - 1]);
      NormalIsFixed(items[|items| - 1]);
    }
  }

  lemma {:induction false} NormalEntriesFixed(entries: seq<Entry>)
    requires NormalEntries(entries)
    ensures CamelEntries(entries) == entries
    decreases entries, 0
  {
    if entries == [] {
    } else {
      var front, e := entries[..|entries| - 1], entries[|entries| - 1];
      NormalEntriesFixed(front);
      NormalIsFixed(e.value);
      CamelKeyKept(e.key);
      NewKeyIsLast(entries, front, e);
    }
  }

  lemma NewKeyIsLast(entries: seq<Entry>, front: seq<Entry>, e: Entry)
    requires DistinctKeys(entries) && entries == front + [e]
    ensures Put(front, e.key, e.value) == entries
  {
    assert forall k | 0 <= k < |front| :: entries[k] == front[k];
    assert entries[|front|] == e;
  }

  /** A tree is a fixed point exactly when every object in it, outside those that hide their
      constructor, has distinct camel-case keys. */
  lemma FixedExactlyWhenNormal(value: Json)
    ensures CamelTree(value) == value <==> Normal(value)
  {
    TreeIsNormal(value);
    if Normal(value) { NormalIsFixed(value); }
  }

  /** A second pass changes nothing, whatever keys collided in the first. */
  lemma KeysToCamelIdempotent(value: Json)
    ensures CamelTree(CamelTree(value)) == CamelTree(value)
  {
    TreeIsNormal(value);
    NormalIsFixed(CamelTree(value));
  }

  /** A list keeps its length and order. */
  lemma {:induction false} ItemsInPlace(items: seq<Json>)
    ensures CamelTree(Arr(items)).Arr? && |CamelTree(Arr(items)).items| == |items|
    ensures forall k | 0 <= k < |items| :: CamelTree(Arr(items)).items[k] == CamelTree(items[k])
  {
    if items == [] {
    } else {
      ItemsInPlace(items[..|items| - 1]);
    }
  }

  predicate NoKeysMeet(entries: seq<Entry>) {
    forall i, j | 0 <= i < j < |entries| :: SnakeToCamelKey(entries[i].key) != SnakeToCamelKey(entries[j].key)
  }

  /** Where no two keys of an object become the same, every entry stays in its place, its key and its
      value rewritten. */
  lemma {:induction false} EntriesInPlace(entries: seq<Entry>)
    requires NoKeysMeet(entries)
    ensures |CamelEntries(entries)| == |entries|
    ensures forall k | 0 <= k < |entries| ::
      CamelEntries(entries)[k] == Entry(SnakeToCamelKey(entries[k].key), CamelTree(entries[k].value))
  {
    if entries == [] {
    } else {
      var front, e := entries[..|entries| - 1], entries[|entries| - 1];
      EntriesInPlace(front);
      assert IndexOf(CamelEntries(front), SnakeToCamelKey(e.key)) == |front|;
    }
  }

  /** The value of a key in an object. */
  function Lookup(entries: seq<Entry>, key: string): Option<Json> {
    var i := IndexOf(entries, key);
    if i < |entries| then Some(entries[i].value) else None
  }

  /** The last entry whose rewritten key is `key`. */
  function LastMatch(entries: seq<Entry>, key: string): Option<Json> {
    if entries == [] then None
    else
      var e := entries[|entries| - 1];
      if SnakeToCamelKey(e.key) == key then Some(e.value) else LastMatch(entries[..|entries| - 1], key)
  }

  /** What the loop over the entries leaves under a key. */
  lemma {:induction false} LoopKeepsLast(entries: seq<Entry>, key: string)
    ensures Lookup(CamelEntries(entries), key) ==
            match LastMatch(entries, key) { case None => None case Some(v) => Some(CamelTree(v)) }
  {
    if entries == [] {
    } else {
      var front, e := entries[..|entries| - 1], entries[|entries| - 1];
      LoopKeepsLast(front, key);
      LookupAfterPut(CamelEntries(front), SnakeToCamelKey(e.key), CamelTree(e.value), key);
    }
  }

  /** What an object holds under a key afterwards: what it held before if it hides its constructor,
      and otherwise the rewriting of the last entry whose key becomes this one, if any does. */
  lemma LastCollidingEntryWins(entries: seq<Entry>, key: string)
    ensures CamelTree(Obj(entries)).Obj?
    ensures Lookup(CamelTree(Obj(entries)).entries, key) ==
            if HidesConstructor(entries) then Lookup(entries, key)
            else match LastMatch(entries, key) { case None => None case Some(v) => Some(CamelTree(v)) }
  {
    LoopKeepsLast(entries, key);
  }

  predicate AllLower(key: string) {
    forall i | 0 <= i < |key| :: LowerAscii(key[i])
  }

  /** Rewriting a key leaves an upper-case letter where it removed an underscore. */
  lemma {:induction false} LowerKeyKept(key: string)
    requires AllLower(SnakeToCamelKey(key))
    ensures SnakeToCamelKey(key) == key
  {
    if key == "" {
    } else {
      var tail := SnakeToCamelKey(key)[1..];
      assert LowerAscii(SnakeToCamelKey(key)[0]);
      assert forall i | 0 <= i < |tail| :: tail[i] == SnakeToCamelKey(key)[i + 1];
      LowerKeyKept(key[1..]);
    }
  }

  /** No other key turns into `constructor`, and none into `__proto__`, whose setter would change the
      prototype of the new object. */
  lemma RewritingIsSafe(key: string)
    ensures SnakeToCamelKey(key) == CONSTRUCTOR <==> key == CONSTRUCTOR
    ensures SnakeToCamelKey(key) != "__proto__"
  {
    RewrittenKeyIsCamel(key);
    assert "__proto__"[1] == '_' && LowerAscii("__proto__"[2]);
    assert AllLower(CONSTRUCTOR);
    if SnakeToCamelKey(key) == CONSTRUCTOR {
      LowerKeyKept(key);
    }
    if key == CONSTRUCTOR { CamelKeyKept(key); }
  }

  /** So the loop leaves an object that hides its constructor exactly when it was given one, and the
      guard decides the same way on a second pass. */
  lemma {:induction false} LoopKeepsConstructor(entries: seq<Entry>)
    ensures HidesConstructor(CamelEntries(entries)) <==> HidesConstructor(entries)
  {
    LoopKeepsLast(entries, CONSTRUCTOR);
    LastConstructor(entries);
  }

  lemma {:induction false} LastConstructor(entries: seq<Entry>)
    ensures LastMatch(entries, CONSTRUCTOR).Some? <==> HidesConstructor(entries)
  {
    if entries == [] {
    } else {
      var front, e := entries[..|entries| - 1], entries[|entries| - 1];
      LastConstructor(front);
      RewritingIsSafe(e.key);
      var i := IndexOf(entries, CONSTRUCTOR);
      if i < |front| { assert front[i] == entries[i]; }
      var j := IndexOf(front, CONSTRUCTOR);
      if j < |front| { assert entries[j] == front[j]; }
    }
  }

  lemma LookupAfterPut(entries: seq<Entry>, at: string, value: Json, key: string)
    ensures Lookup(Put(entries, at, value), key) == if key == at then Some(value) else Lookup(entries, key)
  {
    var i := IndexOf(entries, at);
    var out := Put(entries, at, value);
    var j := IndexOf(out, key);
    if key == at {
      assert out[i].key == at;
    } else if j < |out| {
      assert out[j].key == key && out[j] == entries[j];
      assert forall k | 0 <= k < j :: entries[k].key != key by {
        forall k | 0 <= k < j ensures entries[k].key != key { assert out[k].key != key; }
      }
    } else {
      forall k | 0 <= k < |entries|
        ensures entries[k].key != key
      {
        assert k != i ==> out[k] == entries[k];
      }
    }
  }
}
