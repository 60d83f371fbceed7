/** Rewriting every text inside a schemaless JSON value. */
module FieldRewrite {
  import opened Wrappers
  import opened JsText
  import opened DiagnosticText

  datatype Json =
    | Null
    | Boolean(value: bool)
    | Number(number: int)
    | Text(text: string)
    | Array(items: seq<Json>)
    | Object(entries: seq<Entry>)

  datatype Entry = Entry(key: string, item: Json)

  /** The rewriting of texts and of the values of locator fields, which become a text or null. */
  datatype Sanitizers = Sanitizers(url: Sanitizer, repository: Json -> Json, locator: Json -> Json)
  {
    ghost predicate Lawful() {
      forall v :: IsScalar(repository(v)) && IsScalar(locator(v))
    }

    function TextOf(s: string): string {
      SpanPartition(s);
      Rewritten(s, SpansOf(s), 0, url)
    }
  }

  predicate IsScalar(v: Json) {
    !v.Array? && !v.Object?
  }

  lemma LawfulSanitizersExist(url: Sanitizer)
    ensures Sanitizers(url, v => Null, v => Null).Lawful()
  {
  }

  const REPOSITORY_KEYS := {"repositoryurl", "repository_url", "hostcloneurl", "host_clone_url"}
  const LOCATOR_KEYS := {"sourceinput", "source_input", "sourcelocator", "source_locator"}

  predicate IsRepositoryKey(key: string) {
    Lower(key) in REPOSITORY_KEYS
  }

  predicate IsLocatorKey(key: string) {
    Lower(key) in LOCATOR_KEYS
  }

  // ------------------------------------------------------------------ a key that is still free

  function Candidate(key: string, k: nat): string {
    if k == 0 then key else key + " [" + Decimal(k + 1) + "]"
  }

  lemma CandidatesDiffer(key: string, i: nat, j: nat)
    requires i != j
    ensures Candidate(key, i) != Candidate(key, j)
  {
    if i == 0 || j == 0 {
    } else if Candidate(key, i) == Candidate(key, j) {
      var a, b := Decimal(i + 1), Decimal(j + 1);
      assert Candidate(key, i)[|key| + 2..|Candidate(key, i)| - 1] == a;
      assert Candidate(key, j)[|key| + 2..|Candidate(key, j)| - 1] == b;
      DecimalIsInjective(i + 1, j + 1);
    }
  }

  /** Of any n used keys, the first n + 1 candidates cannot all be taken. */
  lemma {:induction false} CandidatesRunOut(key: string, used: set<string>, k: nat)
    requires forall i | 0 <= i < k :: Candidate(key, i) in used
    ensures k <= |used|
    decreases k
  {
    if k > 0 {
      var last := Candidate(key, k - 1);
      var others := used - {last};
      forall i | 0 <= i < k - 1 ensures Candidate(key, i) in others {
        CandidatesDiffer(key, i, k - 1);
      }
      CandidatesRunOut(key, others, k - 1);
    }
  }

  /** The number of the first free candidate from k on, when all before k are taken. */
  function FirstFree(key: string, used: set<string>, k: nat): (r: nat)
    requires forall i | 0 <= i < k :: Candidate(key, i) in used
    ensures k <= r <= |used|
    ensures Candidate(key, r) !in used && forall i | 0 <= i < r :: Candidate(key, i) in used
    decreases |used| - k
  {
    CandidatesRunOut(key, used, k);
    if Candidate(key, k) !in used then k
    else
      CandidatesRunOut(key, used, k + 1);
      FirstFree(key, used, k + 1)
  }

  /** The suffix search; tries counts the keys looked up. */
  method UniqueKey(key: string, used: set<string>) returns (unique: string, tries: nat)
    ensures unique == Candidate(key, FirstFree(key, used, 0)) && unique !in used
    ensures tries <= |used| + 1
  {
    unique := key;
    var suffix := 2;
    tries := 1;
    while unique in used
      invariant suffix == tries + 1 && 1 <= tries
      invariant unique == Candidate(key, tries - 1)
      invariant forall i | 0 <= i < tries - 1 :: Candidate(key, i) in used
      invariant tries - 1 <= |used|
      decreases |used| + 1 - tries
    {
      assert forall i | 0 <= i < tries :: Candidate(key, i) in used;
      CandidatesRunOut(key, used, tries);
      unique := key + " [" + Decimal(suffix) + "]";
      suffix := suffix + 1;
      tries := tries + 1;
    }
    FirstFreeIs(key, used, tries - 1);
  }

  lemma FirstFreeIs(key: string, used: set<string>, k: nat)
    requires Candidate(key, k) !in used && forall i | 0 <= i < k :: Candidate(key, i) in used
    ensures FirstFree(key, used, 0) == k
  {
    var r := FirstFree(key, used, 0);
    assert Candidate(key, r) !in used;
  }

  // ------------------------------------------------------------------ the rewrite

  function Rewrite(z: Sanitizers, v: Json): Json
    decreases v
  {
    match v
    case Text(s) => Text(z.TextOf(s))
    case Array(items) => Array(RewriteItems(z, items))
    case Object(entries) => Object(RewriteEntries(z, entries, {}))
    case _ => v
  }

  function RewriteItems(z: Sanitizers, items: seq<Json>): seq<Json>
    decreases items
  {
    if items == [] then [] else [Rewrite(z, items[0])] + RewriteItems(z, items[1..])
  }

  function RewriteItem(z: Sanitizers, e: Entry): Json
    decreases e
  {
    if IsRepositoryKey(e.key) then z.repository(e.item)
    else if IsLocatorKey(e.key) then
      var located := z.locator(e.item);
      if located.Text? then Text(z.TextOf(located.text)) else located
    else Rewrite(z, e.item)
  }

  function NewKey(z: Sanitizers, key: string, used: set<string>): string {
    var sanitized := z.TextOf(key);
    Candidate(sanitized, FirstFree(sanitized, used, 0))
  }

  function RewriteEntries(z: Sanitizers, entries: seq<Entry>, used: set<string>): seq<Entry>
    decreases entries
  {
    if entries == [] then []
    else
      var key := NewKey(z, entries[0].key, used);
      [Entry(key, RewriteItem(z, entries[0]))] + RewriteEntries(z, entries[1..], used + {key})
  }

  // ------------------------------------------------------------------ nothing is lost, and exactly when

  /** The same arrays and objects, of the same sizes, in the same places. */
  predicate SameShape(v: Json, w: Json)
    decreases v
  {
    match v
    case Array(items) => w.Array? && SameShapes(items, w.items)
    case Object(entries) => w.Object? && SameEntryShapes(entries, w.entries)
    case _ => IsScalar(w)
  }

  predicate SameShapes(items: seq<Json>, others: seq<Json>)
    decreases items
  {
    if items == [] then others == []
    else others != [] && SameShape(items[0], others[0]) && SameShapes(items[1..], others[1..])
  }

  predicate SameEntryShapes(entries: seq<Entry>, others: seq<Entry>)
    decreases entries
  {
    if entries == [] then others == []
    else others != [] && SameItemShape(entries[0], others[0].item) && SameEntryShapes(entries[1..], others[1..])
  }

  predicate SameItemShape(e: Entry, w: Json)
    decreases e
  {
    SameShape(e.item, w)
  }

  /** No array or object stands under a repository or locator key, at any depth. */
  predicate LocatorsAreScalar(v: Json)
    decreases v
  {
    match v
    case Array(items) => AllLocatorsAreScalar(items)
    case Object(entries) => EntryLocatorsAreScalar(entries)
    case _ => true
  }

  predicate AllLocatorsAreScalar(items: seq<Json>)
    decreases items
  {
    items != [] ==> LocatorsAreScalar(items[0]) && AllLocatorsAreScalar(items[1..])
  }

  predicate EntryLocatorsAreScalar(entries: seq<Entry>)
    decreases entries
  {
    entries != [] ==> LocatorIsScalar(entries[0]) && EntryLocatorsAreScalar(entries[1..])
  }

  predicate LocatorIsScalar(e: Entry)
    decreases e
  {
    if IsRepositoryKey(e.key) || IsLocatorKey(e.key) then IsScalar(e.item) else LocatorsAreScalar(e.item)
  }

  /**
    The rewriting keeps every array length and every object's number of entries at every depth,
    exactly when no array or object stands where a repository or source locator is expected.
   */
  lemma {:induction false} ShapeIsKeptExactly(z: Sanitizers, v: Json)
    requires z.Lawful()
    ensures SameShape(v, Rewrite(z, v)) <==> LocatorsAreScalar(v)
    decreases v
  {
    match v
    case Array(items) => ItemShapesAreKept(z, items);
    case Object(entries) => EntryShapesAreKept(z, entries, {});
    case _ =>
  }

  lemma {:induction false} ItemShapesAreKept(z: Sanitizers, items: seq<Json>)
    requires z.Lawful()
    ensures SameShapes(items, RewriteItems(z, items)) <==> AllLocatorsAreScalar(items)
    decreases items
  {
    if items != [] {
      ShapeIsKeptExactly(z, items[0]);
      ItemShapesAreKept(z, items[1..]);
      assert RewriteItems(z, items)[1..] == RewriteItems(z, items[1..]);
    }
  }

  lemma {:induction false} EntryShapesAreKept(z: Sanitizers, entries: seq<Entry>, used: set<string>)
    requires z.Lawful()
    ensures SameEntryShapes(entries, RewriteEntries(z, entries, used)) <==> EntryLocatorsAreScalar(entries)
    decreases entries
  {
    if entries != [] {
      ItemShapeIsKept(z, entries[0]);
      var key := NewKey(z, entries[0].key, used);
      EntryShapesAreKept(z, entries[1..], used + {key});
      assert RewriteEntries(z, entries, used)[1..] == RewriteEntries(z, entries[1..], used + {key});
    }
  }

  lemma {:induction false} ItemShapeIsKept(z: Sanitizers, e: Entry)
    requires z.Lawful()
    ensures SameItemShape(e, RewriteItem(z, e)) <==> LocatorIsScalar(e)
    decreases e
  {
    if IsRepositoryKey(e.key) || IsLocatorKey(e.key) {
      assert IsScalar(RewriteItem(z, e));
    } else {
      ShapeIsKeptExactly(z, e.item);
    }
  }

  /** An object under a repository key loses its entries. */
  lemma NestedLocatorIsLost(z: Sanitizers) returns (v: Json)
    requires z.Lawful()
    ensures !SameShape(v, Rewrite(z, v))
  {
    v := Object([Entry("repositoryUrl", Object([Entry("a", Null), Entry("b", Null)]))]);
    var entries := v.entries;
    assert Lower("repositoryUrl") == "repositoryurl";
    assert !LocatorIsScalar(entries[0]);
    ShapeIsKeptExactly(z, v);
  }

  // ------------------------------------------------------------------ distinct keys

  predicate KeysAreDistinct(entries: seq<Entry>) {
    forall i, j | 0 <= i < j < |entries| :: entries[i].key != entries[j].key
  }

  /** Every object at every depth has pairwise distinct keys. */
  predicate Distinct(v: Json)
    decreases v
  {
    match v
    case Array(items) => forall i | 0 <= i < |items| :: Distinct(items[i])
    case Object(entries) => KeysAreDistinct(entries) && forall i | 0 <= i < |entries| :: DistinctBelow(entries[i])
    case _ => true
  }

  predicate DistinctBelow(e: Entry)
    decreases e
  {
    Distinct(e.item)
  }

  /** The keys of every rewritten object are pairwise distinct, even when sanitized keys collide. */
  lemma {:induction false} RewrittenKeysAreDistinct(z: Sanitizers, v: Json)
    requires z.Lawful()
    ensures Distinct(Rewrite(z, v))
    decreases v
  {
    match v
    case Array(items) => RewrittenItemsAreDistinct(z, items);
    case Object(entries) => RewrittenEntriesAreDistinct(z, entries, {});
    case _ =>
  }

  lemma {:induction false} RewrittenItemsAreDistinct(z: Sanitizers, items: seq<Json>)
    requires z.Lawful()
    ensures forall i | 0 <= i < |RewriteItems(z, items)| :: Distinct(RewriteItems(z, items)[i])
    decreases items
  {
    if items != [] {
      RewrittenKeysAreDistinct(z, items[0]);
      RewrittenItemsAreDistinct(z, items[1..]);
      var rest := RewriteItems(z, items[1..]);
      forall i | 0 <= i < |RewriteItems(z, items)| ensures Distinct(RewriteItems(z, items)[i]) {
        if i > 0 {
          assert RewriteItems(z, items)[i] == rest[i - 1];
        }
      }
    }
  }

  lemma {:induction false} RewrittenEntriesAreDistinct(z: Sanitizers, entries: seq<Entry>, used: set<string>)
    requires z.Lawful()
    ensures KeysAreDistinct(RewriteEntries(z, entries, used))
    ensures forall i | 0 <= i < |RewriteEntries(z, entries, used)| ::
              RewriteEntries(z, entries, used)[i].key !in used && DistinctBelow(RewriteEntries(z, entries, used)[i])
    decreases entries
  {
    if entries != [] {
      var key := NewKey(z, entries[0].key, used);
      var rest := RewriteEntries(z, entries[1..], used + {key});
      var all := RewriteEntries(z, entries, used);
      RewrittenItemIsDistinct(z, entries[0]);
      RewrittenEntriesAreDistinct(z, entries[1..], used + {key});
      assert all[0].key == key && forall i | 0 < i < |all| :: all[i] == rest[i - 1];
    }
  }

  lemma {:induction false} RewrittenItemIsDistinct(z: Sanitizers, e: Entry)
    requires z.Lawful()
    ensures Distinct(RewriteItem(z, e))
    decreases e
  {
    if IsRepositoryKey(e.key) || IsLocatorKey(e.key) {
      assert IsScalar(RewriteItem(z, e));
    } else {
      RewrittenKeysAreDistinct(z, e.item);
    }
  }

  // ------------------------------------------------------------------ the recursion with its loop

  method SanitizeFields(z: Sanitizers, v: Json) returns (r: Json)
    ensures r == Rewrite(z, v)
    decreases v
  {
    match v {
      case Text(s) =>
        var text := SanitizeUrlDiagnosticText(s, z.url);
        r := Text(text);
      case Array(items) =>
        var done := [];
        var i := 0;
        assert items[0..] == items;
        while i < |items|
          invariant 0 <= i <= |items| && done + RewriteItems(z, items[i..]) == RewriteItems(z, items)
        {
          var item := SanitizeFields(z, items[i]);
          assert items[i..][1..] == items[i + 1..];
          assert done + ([item] + RewriteItems(z, items[i + 1..])) == done + [item] + RewriteItems(z, items[i + 1..]);
          done := done + [item];
          i := i + 1;
        }
        assert items[i..] == [] && done + [] == done;
        r := Array(done);
      case Object(entries) =>
        var done := SanitizeEntries(z, entries);
        r := Object(done);
      case _ =>
        r := v;
    }
  }

  method SanitizeEntries(z: Sanitizers, entries: seq<Entry>) returns (done: seq<Entry>)
    ensures done == RewriteEntries(z, entries, {})
    decreases entries
  {
    done := [];
    var usedKeys := {};
    var i := 0;
    assert entries[0..] == entries;
    while i < |entries|
      invariant 0 <= i <= |entries| && done + RewriteEntries(z, entries[i..], usedKeys) == RewriteEntries(z, entries, {})
    {
      var e := entries[i];
      var sanitizedKey := SanitizeUrlDiagnosticText(e.key, z.url);
      var key, _ := UniqueKey(sanitizedKey, usedKeys);
      var item := SanitizeItem(z, e);
      EntriesStep(z, entries, i, usedKeys);
      assert done + ([Entry(key, item)] + RewriteEntries(z, entries[i + 1..], usedKeys + {key}))
          == done + [Entry(key, item)] + RewriteEntries(z, entries[i + 1..], usedKeys + {key});
      usedKeys := usedKeys + {key};
      done := done + [Entry(key, item)];
      i := i + 1;
    }
    assert entries[i..] == [] && done + [] == done;
  }

  lemma EntriesStep(z: Sanitizers, entries: seq<Entry>, i: nat, used: set<string>)
    requires i < |entries|
    ensures RewriteEntries(z, entries[i..], used) ==
            [Entry(NewKey(z, entries[i].key, used), RewriteItem(z, entries[i]))]
            + RewriteEntries(z, entries[i + 1..], used + {NewKey(z, entries[i].key, used)})
  {
    assert entries[i..][1..] == entries[i + 1..];
  }

  method SanitizeItem(z: Sanitizers, e: Entry) returns (item: Json)
    ensures item == RewriteItem(z, e)
    decreases e
  {
    if IsRepositoryKey(e.key) {
      item := z.repository(e.item);
    } else if IsLocatorKey(e.key) {
      item := z.locator(e.item);
      if item.Text? {
        var text := SanitizeUrlDiagnosticText(item.text, z.url);
        item := Text(text);
      }
    } else {
      item := SanitizeFields(z, e.item);
    }
  }
}
