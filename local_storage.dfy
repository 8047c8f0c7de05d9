/** The bounded, persisted generation history (src/utils/localStorage.ts).

    The browser store is reduced to the one key the history lives under: a
    snapshot that is absent, or holds some text. The text is modelled as
    what `JSON.parse` makes of it: nothing (the empty string), a parse
    error, a value that is not an array, or an array of items. Storage
    errors are explicit flags: `readFails` when reading the key throws,
    `writeFails` when writing or removing it throws. */
module LocalStorage {
  import opened Types

  const MaxHistoryItems: nat := 5

  /** A property of a parsed item: absent, a string, or some other value. */
  datatype JsonField = Missing | Str(text: string) | NonString

  /** An element of the parsed array: `null`, a value that is not an
      object, or an object seen through the five fields a generation has. */
  datatype JsonItem =
    | JsonNull
    | NonObject
    | Object(id: JsonField, imageUrl: JsonField, prompt: JsonField, style: JsonField, createdAt: JsonField)

  datatype JsonValue = NonArray | Array(items: seq<JsonItem>)

  /** The text under the key "modelia_generation_history", as `JSON.parse`
      sees it. */
  datatype StoredText = EmptyText | Malformed | Json(value: JsonValue)

  /** The filter of `getGenerationHistory`: a non-null object whose five
      fields are all strings. */
  predicate IsGenerationItem(item: JsonItem) {
    && item.Object?
    && item.id.Str? && item.imageUrl.Str? && item.prompt.Str?
    && item.style.Str? && item.createdAt.Str?
  }

  function ToGeneration(item: JsonItem): Generation
    requires IsGenerationItem(item)
  {
    Generation(item.id.text, item.imageUrl.text, item.prompt.text, item.style.text, item.createdAt.text)
  }

  /** `JSON.stringify` of one generation, as `JSON.parse` reads it back. */
  function Encode(g: Generation): (item: JsonItem)
    ensures IsGenerationItem(item) && ToGeneration(item) == g
  {
    Object(Str(g.id), Str(g.imageUrl), Str(g.prompt), Str(g.style), Str(g.createdAt))
  }

  lemma EncodeToGeneration(item: JsonItem)
    requires IsGenerationItem(item)
    ensures Encode(ToGeneration(item)) == item
  {
  }

  function EncodeAll(gs: seq<Generation>): (items: seq<JsonItem>)
    ensures |items| == |gs|
    ensures forall i :: 0 <= i < |gs| ==> items[i] == Encode(gs[i])
  {
    if gs == [] then [] else [Encode(gs[0])] + EncodeAll(gs[1..])
  }

  /** `a` is `b` with some elements left out and the rest in their order. */
  predicate IsSubsequence<T(==)>(a: seq<T>, b: seq<T>) {
    if a == [] then true
    else if b == [] then false
    else if a[0] == b[0] then IsSubsequence(a[1..], b[1..])
    else IsSubsequence(a, b[1..])
  }

  /** The items that pass the filter, as generations, in their order. */
  function FilterGenerations(items: seq<JsonItem>): (gs: seq<Generation>)
    ensures |gs| <= |items|
  {
    if items == [] then []
    else Kept(items[0]) + FilterGenerations(items[1..])
  }

  /** What the filter makes of one item. */
  function Kept(item: JsonItem): seq<Generation> {
    if IsGenerationItem(item) then [ToGeneration(item)] else []
  }

  /** The filter invents nothing and keeps the order: what it returns,
      written back, is a subsequence of the array. */
  lemma {:induction false} FilterIsSubsequence(items: seq<JsonItem>)
    ensures IsSubsequence(EncodeAll(FilterGenerations(items)), items)
  {
    if items != [] {
      var rest := FilterGenerations(items[1..]);
      FilterIsSubsequence(items[1..]);
      if IsGenerationItem(items[0]) {
        assert EncodeAll(FilterGenerations(items)) == [items[0]] + EncodeAll(rest);
      } else {
        assert FilterGenerations(items) == rest;
        assert EncodeAll(rest) != [] ==> IsGenerationItem(EncodeAll(rest)[0]);
      }
    }
  }

  /** The filter loses no valid item. */
  lemma {:induction false} FilterKeepsValid(items: seq<JsonItem>, i: nat)
    requires i < |items| && IsGenerationItem(items[i])
    ensures ToGeneration(items[i]) in FilterGenerations(items)
  {
    if i > 0 {
      FilterKeepsValid(items[1..], i - 1);
    }
  }

  /** Filtering a concatenation filters each part. */
  lemma {:induction false} FilterAppend(a: seq<JsonItem>, b: seq<JsonItem>)
    ensures FilterGenerations(a + b) == FilterGenerations(a) + FilterGenerations(b)
  {
    if a == [] {
      assert a + b == b;
    } else {
      var c := a + b;
      assert c[0] == a[0];
      assert c[1..] == a[1..] + b;
      FilterAppend(a[1..], b);
      calc {
        FilterGenerations(c);
        Kept(a[0]) + FilterGenerations(a[1..] + b);
        Kept(a[0]) + (FilterGenerations(a[1..]) + FilterGenerations(b));
        (Kept(a[0]) + FilterGenerations(a[1..])) + FilterGenerations(b);
      }
    }
  }

  /** The filter drops exactly the invalid items: it keeps everything when
      every item is a generation and loses something otherwise. */
  lemma {:induction false} FilterKeepsAllOnlyIfValid(items: seq<JsonItem>)
    ensures |FilterGenerations(items)| == |items| <==> forall i :: 0 <= i < |items| ==> IsGenerationItem(items[i])
  {
    if items != [] {
      FilterKeepsAllOnlyIfValid(items[1..]);
      assert forall i :: 1 <= i < |items| ==> items[i] == items[1..][i - 1];
    }
  }

  /** Reading back a written history gives it unchanged. */
  lemma {:induction false} FilterEncoded(gs: seq<Generation>)
    ensures FilterGenerations(EncodeAll(gs)) == gs
  {
    if gs != [] {
      assert EncodeAll(gs)[1..] == EncodeAll(gs[1..]);
      FilterEncoded(gs[1..]);
    }
  }

  /** The array in the snapshot, or nothing when there is none. */
  function StoredItems(stored: Option<StoredText>): seq<JsonItem> {
    if stored.Some? && stored.value.Json? && stored.value.value.Array? then stored.value.value.items else []
  }

  /** `getGenerationHistory`: empty when reading fails, when the snapshot is
      absent or empty text, when it does not parse, or when it is not an
      array; otherwise the filtered array. It never writes. */
  function GetGenerationHistory(stored: Option<StoredText>, readFails: bool): (h: seq<Generation>)
    ensures readFails ==> h == []
    ensures StoredItems(stored) == [] ==> h == []
    ensures !readFails ==> h == FilterGenerations(StoredItems(stored))
  {
    if readFails then []
    else
      match stored
      case None => []
      case Some(EmptyText) => []
      case Some(Malformed) => []
      case Some(Json(NonArray)) => []
      case Some(Json(Array(items))) => FilterGenerations(items)
  }

  /** The first `n` elements of `s`, or all of them when there are fewer. */
  function Take<T>(s: seq<T>, n: nat): (r: seq<T>)
    ensures |r| <= n && (|s| <= n ==> r == s)
    ensures r == s[..|r|] && (|r| < n ==> r == s)
  {
    if |s| <= n then s else s[..n]
  }

  /** The snapshot `saveGeneration(g)` writes: `g` in front of the history
      as read now, cut to `MaxHistoryItems`, replacing whatever was there. */
  function SavedSnapshot(stored: Option<StoredText>, g: Generation, readFails: bool): Option<StoredText> {
    Some(Json(Array(EncodeAll(Take([g] + GetGenerationHistory(stored, readFails), MaxHistoryItems)))))
  }

  /** After a save the history reads as `take(5, [g] + before)`: at most five
      entries, `g` first, then the earlier entries in their order. */
  lemma SaveShape(stored: Option<StoredText>, g: Generation, readFails: bool)
    ensures
      var before := GetGenerationHistory(stored, readFails);
      var after := GetGenerationHistory(SavedSnapshot(stored, g, readFails), false);
      && after == Take([g] + before, MaxHistoryItems)
      && 1 <= |after| <= MaxHistoryItems
      && after[0] == g
      && (forall i :: 0 <= i < MaxHistoryItems - 1 && i < |before| ==> after[i + 1] == before[i])
  {
    FilterEncoded(Take([g] + GetGenerationHistory(stored, readFails), MaxHistoryItems));
  }

  /** A save leaves a clean snapshot: every stored item is a valid
      generation, so the next read drops nothing. */
  lemma SaveCleansSnapshot(stored: Option<StoredText>, g: Generation, readFails: bool)
    ensures
      var items := StoredItems(SavedSnapshot(stored, g, readFails));
      && (forall i :: 0 <= i < |items| ==> IsGenerationItem(items[i]))
      && |GetGenerationHistory(SavedSnapshot(stored, g, readFails), false)| == |items|
  {
    FilterEncoded(Take([g] + GetGenerationHistory(stored, readFails), MaxHistoryItems));
  }

  /** The snapshot after saving `gs[0]`, then `gs[1]`, and so on, with every
      read and write succeeding. */
  function SaveAll(stored: Option<StoredText>, gs: seq<Generation>): Option<StoredText>
    decreases |gs|
  {
    if gs == [] then stored else SavedSnapshot(SaveAll(stored, gs[..|gs| - 1]), gs[|gs| - 1], false)
  }

  function Reverse<T>(s: seq<T>): (r: seq<T>)
    ensures |r| == |s|
  {
    if s == [] then [] else [s[|s| - 1]] + Reverse(s[..|s| - 1])
  }

  lemma {:induction false} ReverseAt<T>(s: seq<T>, i: nat)
    requires i < |s|
    ensures Reverse(s)[i] == s[|s| - 1 - i]
  {
    if i > 0 {
      ReverseAt(s[..|s| - 1], i - 1);
    }
  }

  lemma TakeTake<T>(x: T, s: seq<T>, m: nat, n: nat)
    requires m + 1 >= n
    ensures Take([x] + Take(s, m), n) == Take([x] + s, n)
  {
  }

  lemma {:induction false} ReverseConcat<T>(gs: seq<T>, rest: seq<T>)
    requires gs != []
    ensures Reverse(gs) + rest == [gs[|gs| - 1]] + (Reverse(gs[..|gs| - 1]) + rest)
  {
    var x, r := gs[|gs| - 1], Reverse(gs[..|gs| - 1]);
    assert Reverse(gs) == [x] + r;
    assert ([x] + r) + rest == [x] + (r + rest);
  }

  /** One more save on top of a run of saves. */
  lemma SaveAllStep(stored: Option<StoredText>, gs: seq<Generation>)
    requires gs != []
    ensures GetGenerationHistory(SaveAll(stored, gs), false)
            == Take([gs[|gs| - 1]] + GetGenerationHistory(SaveAll(stored, gs[..|gs| - 1]), false), MaxHistoryItems)
  {
    SaveShape(SaveAll(stored, gs[..|gs| - 1]), gs[|gs| - 1], false);
  }

  lemma SaveAllBase(stored: Option<StoredText>, gs: seq<Generation>)
    requires |gs| == 1
    ensures GetGenerationHistory(SaveAll(stored, gs), false)
            == Take(Reverse(gs) + GetGenerationHistory(stored, false), MaxHistoryItems)
  {
    assert SaveAll(stored, gs) == SavedSnapshot(stored, gs[0], false) by {
      assert gs[..0] == [];
    }
    SaveShape(stored, gs[0], false);
    ReverseSingleton(gs);
  }

  lemma ReverseSingleton<T>(s: seq<T>)
    requires |s| == 1
    ensures Reverse(s) == s
  {
    assert s[..0] == [];
  }

  /** The sequence reasoning behind one induction step of SavesKeepNewest. */
  lemma PrependStep<T>(gs: seq<T>, before: seq<T>, previous: seq<T>, h: seq<T>)
    requires |gs| >= 2
    requires previous == Take(Reverse(gs[..|gs| - 1]) + before, MaxHistoryItems)
    requires h == Take([gs[|gs| - 1]] + previous, MaxHistoryItems)
    ensures h == Take(Reverse(gs) + before, MaxHistoryItems)
  {
    TakeTake(gs[|gs| - 1], Reverse(gs[..|gs| - 1]) + before, MaxHistoryItems, MaxHistoryItems);
    ReverseConcat(gs, before);
  }

  /** After a non-empty run of saves the history reads as the saved
      generations, newest first, followed by what was there before, cut to
      five. */
  lemma {:induction false} SavesKeepNewest(stored: Option<StoredText>, gs: seq<Generation>)
    requires gs != []
    ensures GetGenerationHistory(SaveAll(stored, gs), false)
            == Take(Reverse(gs) + GetGenerationHistory(stored, false), MaxHistoryItems)
    decreases |gs|
  {
    if |gs| == 1 {
      SaveAllBase(stored, gs);
    } else {
      SavesKeepNewest(stored, gs[..|gs| - 1]);
      SaveAllStep(stored, gs);
      PrependStep(gs, GetGenerationHistory(stored, false),
        GetGenerationHistory(SaveAll(stored, gs[..|gs| - 1]), false),
        GetGenerationHistory(SaveAll(stored, gs), false));
    }
  }

  /** The first five of six items reversed, followed by anything. */
  lemma FirstFiveOfReversed<T>(gs: seq<T>, rest: seq<T>)
    requires |gs| == 6
    ensures Take(Reverse(gs) + rest, MaxHistoryItems) == [gs[5], gs[4], gs[3], gs[2], gs[1]]
  {
    var r := Reverse(gs);
    ReverseAt(gs, 0);
    ReverseAt(gs, 1);
    ReverseAt(gs, 2);
    ReverseAt(gs, 3);
    ReverseAt(gs, 4);
    assert (r + rest)[..5] == [gs[5], gs[4], gs[3], gs[2], gs[1]];
  }

  /** Six saves in a row keep the five most recent, newest first; the
      oldest is evicted, and so is anything stored before. */
  lemma SixSavesKeepFiveNewest(
    stored: Option<StoredText>, g1: Generation, g2: Generation, g3: Generation,
    g4: Generation, g5: Generation, g6: Generation)
    ensures GetGenerationHistory(SaveAll(stored, [g1, g2, g3, g4, g5, g6]), false) == [g6, g5, g4, g3, g2]
  {
    var gs := [g1, g2, g3, g4, g5, g6];
    SavesKeepNewest(stored, gs);
    FirstFiveOfReversed(gs, GetGenerationHistory(stored, false));
  }

  /** A record missing its style, between two valid ones, is dropped; the
      other two are read back in order. */
  lemma CorruptRecordDropped(a: Generation, b: Generation)
    ensures
      var broken := Object(Str(a.id), Str(a.imageUrl), Str(a.prompt), Missing, Str(a.createdAt));
      GetGenerationHistory(Some(Json(Array([Encode(a), broken, Encode(b)]))), false) == [a, b]
  {
    var broken := Object(Str(a.id), Str(a.imageUrl), Str(a.prompt), Missing, Str(a.createdAt));
    assert FilterGenerations([Encode(a)]) == [a] by {
      assert [Encode(a)][1..] == [];
    }
    assert FilterGenerations([broken]) == [] by {
      assert [broken][1..] == [];
    }
    assert FilterGenerations([Encode(b)]) == [b] by {
      assert [Encode(b)][1..] == [];
    }
    FilterAppend([broken], [Encode(b)]);
    FilterAppend([Encode(a)], [broken] + [Encode(b)]);
    assert [Encode(a)] + ([broken] + [Encode(b)]) == [Encode(a), broken, Encode(b)];
  }

  /** The browser store, reduced to the history key. */
  class HistoryStore {
    var stored: Option<StoredText>

    constructor (initial: Option<StoredText>)
      ensures stored == initial
    {
      stored := initial;
    }

    /** `saveGeneration`: replaces the snapshot with the saved one; when the
        write throws, the error is swallowed and the snapshot is unchanged. */
    method SaveGeneration(g: Generation, readFails: bool, writeFails: bool)
      modifies this
      ensures stored == if writeFails then old(stored) else SavedSnapshot(old(stored), g, readFails)
      ensures !writeFails ==>
                var h := GetGenerationHistory(stored, false);
                && h == Take([g] + GetGenerationHistory(old(stored), readFails), MaxHistoryItems)
                && 1 <= |h| <= MaxHistoryItems && h[0] == g
    {
      var existing := GetGenerationHistory(stored, readFails);
      var trimmed := Take([g] + existing, MaxHistoryItems);
      if !writeFails {
        SaveShape(stored, g, readFails);
        stored := Some(Json(Array(EncodeAll(trimmed))));
      }
    }

    /** `clearGenerationHistory`: removes the snapshot, after which the
        history reads as empty; a failing removal changes nothing. */
    method ClearGenerationHistory(fails: bool)
      modifies this
      ensures stored == if fails then old(stored) else None
      ensures !fails ==> GetGenerationHistory(stored, false) == []
    {
      if !fails {
        stored := None;
      }
    }
  }
}
