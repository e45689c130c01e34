/** `_update_intelligence`: normalising loosely typed findings, turning them into the one
    store update, and merging them into the local copy of `extracted_data`. */
module Intel {
  import opened Wrappers
  import opened Session

  // ---------------------------------------------------------------------------
  // Normalisation
  // ---------------------------------------------------------------------------

  /** A finding's value as an extractor hands it over: null, a string, a list whose
      entries are strings or null, or an empty dictionary. */
  datatype RawValue = Null | Str(s: string) | List(items: seq<Option<string>>) | EmptyDict

  /** `v` holds the string `x`, directly or as a list entry. */
  predicate Carries(v: RawValue, x: string) {
    v == Str(x) || (v.List? && Some(x) in v.items)
  }

  /** `[x for x in items if x not in [None, ""]]`. */
  function ValidItems(items: seq<Option<string>>): (r: seq<string>)
    ensures forall x :: x in r <==> Some(x) in items && x != ""
  {
    if items == [] then []
    else
      var init := items[..|items| - 1];
      var rest := ValidItems(init);
      assert forall y :: y in items <==> y in init || y == items[|items| - 1];
      match items[|items| - 1]
      case Some(x) => if x != "" then rest + [x] else rest
      case None => rest
  }

  /** The comprehension keeps the surviving entries in their order, duplicates included:
      it distributes over concatenation and keeps or drops each entry on its own. */
  lemma {:induction false} ValidItemsConcat(a: seq<Option<string>>, b: seq<Option<string>>)
    ensures ValidItems(a + b) == ValidItems(a) + ValidItems(b)
    decreases |b|
  {
    if b == [] {
      assert a + b == a;
    } else {
      var b' := b[..|b| - 1];
      assert (a + b)[..|a + b| - 1] == a + b';
      assert (a + b)[|a + b| - 1] == b[|b| - 1];
      ValidItemsConcat(a, b');
    }
  }

  lemma ValidItemsSingle(e: Option<string>)
    ensures ValidItems([e]) == if e.Some? && e.value != "" then [e.value] else []
  {
    assert [e][..0] == [];
  }

  /** The list one value becomes, or None when it is dropped: blank values (null, "", [] or
      {}) are dropped, a string becomes a one-element list, a list loses its null and
      empty entries and is dropped when nothing is left. */
  function CleanValue(v: RawValue): (r: Option<seq<string>>)
    ensures r.Some? ==> r.value != [] && forall x :: x in r.value <==> Carries(v, x) && x != ""
    ensures r.None? ==> forall x :: Carries(v, x) ==> x == ""
    ensures v.Str? && v.s != "" ==> r == Some([v.s])
    ensures v.List? && r.Some? ==> r.value == ValidItems(v.items)
  {
    match v
    case Null => None
    case EmptyDict => None
    case Str(s) => if s == "" then None else Some([s])
    case List(items) =>
      var valid := ValidItems(items);
      if valid == [] then None else Some(valid)
  }

  /** `clean_intel`: the findings whose value survives, each as a non-empty list. */
  function Normalize(intel: Dict<RawValue>): (c: Dict<seq<string>>)
    ensures |c| <= |intel|
    ensures forall i :: 0 <= i < |c| ==> c[i].1 != [] && "" !in c[i].1
  {
    if intel == [] then []
    else
      var rest := Normalize(intel[..|intel| - 1]);
      var last := intel[|intel| - 1];
      match CleanValue(last.1)
      case Some(vs) => rest + [(last.0, vs)]
      case None => rest
  }

  /** A key of the normalised findings maps to the cleaned value of that key, a key whose
      value is dropped is absent, and no key appears twice. */
  lemma {:induction false} NormalizeLookup(intel: Dict<RawValue>, k: string)
    requires UniqueKeys(intel)
    ensures UniqueKeys(Normalize(intel))
    ensures Lookup(Normalize(intel), k) == match Lookup(intel, k) case Some(v) => CleanValue(v) case None => None
  {
    if intel != [] {
      var init := intel[..|intel| - 1];
      var last := intel[|intel| - 1];
      assert UniqueKeys(init);
      NormalizeLookup(init, k);
      NormalizeLookup(init, last.0);
      LookupAbsent(init, last.0);
      LookupAbsent(Normalize(init), last.0);
      var rest := Normalize(init);
      var c := Normalize(intel);
      if CleanValue(last.1).Some? {
        assert c[..|c| - 1] == rest;
        forall i, j | 0 <= i < j < |c| ensures c[i].0 != c[j].0 {
          if j < |c| - 1 {
            assert c[i] == rest[i] && c[j] == rest[j];
          } else {
            assert c[i] == rest[i];
          }
        }
      }
    }
  }

  /** The normalisation loop of lines 204-213. */
  method NormalizeIntel(intel: Dict<RawValue>) returns (clean: Dict<seq<string>>)
    ensures clean == Normalize(intel)
  {
    clean := [];
    var i := 0;
    while i < |intel|
      invariant 0 <= i <= |intel|
      invariant clean == Normalize(intel[..i])
    {
      assert intel[..i + 1][..i] == intel[..i];
      var key := intel[i].0;
      var v := intel[i].1;
      match v {
        case Null =>
        case EmptyDict =>
        case Str(s) =>
          if s != "" {
            clean := clean + [(key, [s])];
          }
        case List(items) =>
          var valid: seq<string> := [];
          var j := 0;
          while j < |items|
            invariant 0 <= j <= |items|
            invariant valid == ValidItems(items[..j])
          {
            assert items[..j + 1][..j] == items[..j];
            if items[j].Some? && items[j].value != "" {
              valid := valid + [items[j].value];
            }
            j := j + 1;
          }
          assert items[..j] == items;
          if valid != [] {
            clean := clean + [(key, valid)];
          }
      }
      i := i + 1;
    }
    assert intel[..i] == intel;
  }

  // ---------------------------------------------------------------------------
  // The store update
  // ---------------------------------------------------------------------------

  predicate IsStandard(k: string) { k in StandardKeys }

  /** `[{"type": k, "value": v} for v in vs]`. */
  function Records(k: string, vs: seq<string>): (r: seq<DynRecord>)
    ensures |r| == |vs| && forall i :: 0 <= i < |vs| ==> r[i] == DynRecord(k, vs[i])
  {
    seq(|vs|, i requires 0 <= i < |vs| => DynRecord(k, vs[i]))
  }

  /** The `$addToSet` document: `extracted_data.<key>: {"$each": values}` per standard key,
      in order, and `extracted_data.dynamic_intel: {"$each": records}` when `dynamic` is
      not empty. */
  datatype Updates = Updates(standard: Dict<seq<string>>, dynamic: seq<DynRecord>)

  /** What the routing loop of lines 227-252 builds from the findings `c`. */
  function UpdatesOf(c: Dict<seq<string>>): Updates
  {
    if c == [] then Updates([], [])
    else
      var u := UpdatesOf(c[..|c| - 1]);
      var last := c[|c| - 1];
      if last.1 == [] then u
      else if IsStandard(last.0) then Updates(u.standard + [last], u.dynamic)
      else Updates(u.standard, u.dynamic + Records(last.0, last.1))
  }

  /** Standard findings become their own entries, and every value of any other key becomes
      a `{type, value}` record. */
  lemma {:induction false} UpdatesOfContents(c: Dict<seq<string>>)
    ensures forall e :: e in UpdatesOf(c).standard <==> e in c && IsStandard(e.0) && e.1 != []
    ensures forall r :: r in UpdatesOf(c).dynamic <==>
      exists i :: 0 <= i < |c| && !IsStandard(c[i].0) && r.kind == c[i].0 && r.value in c[i].1
  {
    if c != [] {
      var init := c[..|c| - 1];
      UpdatesOfContents(init);
      assert forall i :: 0 <= i < |init| ==> init[i] == c[i];
      assert forall e :: e in c <==> e in init || e == c[|c| - 1];
      var last := c[|c| - 1];
      forall r | r in UpdatesOf(c).dynamic
        ensures exists i :: 0 <= i < |c| && !IsStandard(c[i].0) && r.kind == c[i].0 && r.value in c[i].1
      {
        if r !in UpdatesOf(init).dynamic {
          var j :| 0 <= j < |Records(last.0, last.1)| && Records(last.0, last.1)[j] == r;
          assert !IsStandard(c[|c| - 1].0) && r.kind == c[|c| - 1].0 && r.value in c[|c| - 1].1;
        }
      }
      forall r: DynRecord | exists i :: 0 <= i < |c| && !IsStandard(c[i].0) && r.kind == c[i].0 && r.value in c[i].1
        ensures r in UpdatesOf(c).dynamic
      {
        var i :| 0 <= i < |c| && !IsStandard(c[i].0) && r.kind == c[i].0 && r.value in c[i].1;
        if i == |c| - 1 {
          var j :| 0 <= j < |last.1| && last.1[j] == r.value;
          assert Records(last.0, last.1)[j] == r;
        }
      }
    }
  }

  /** `has_new_data`: some finding has a non-empty value. */
  function HasNewData(c: Dict<seq<string>>): (b: bool)
    ensures b <==> exists i :: 0 <= i < |c| && c[i].1 != []
  {
    if c == [] then false
    else
      assert forall i :: 0 <= i < |c| - 1 ==> c[..|c| - 1][i] == c[i];
      HasNewData(c[..|c| - 1]) || c[|c| - 1].1 != []
  }

  /** The store is written iff anything survives normalisation, even when every value is
      already stored. */
  lemma WriteIffFindings(intel: Dict<RawValue>)
    ensures HasNewData(Normalize(intel)) <==> Normalize(intel) != []
  {
    var c := Normalize(intel);
    if c != [] {
      assert c[0].1 != [];
    }
  }

  /** The routing loop of lines 218-252. */
  method BuildUpdates(c: Dict<seq<string>>) returns (updates: Updates, hasNewData: bool)
    ensures updates == UpdatesOf(c) && hasNewData == HasNewData(c)
  {
    var standard: Dict<seq<string>> := [];
    var dynamic: seq<DynRecord> := [];
    hasNewData := false;
    var i := 0;
    while i < |c|
      invariant 0 <= i <= |c|
      invariant Updates(standard, dynamic) == UpdatesOf(c[..i])
      invariant hasNewData == HasNewData(c[..i])
    {
      assert c[..i + 1][..i] == c[..i];
      var key := c[i].0;
      var values := c[i].1;
      if values != [] {
        if key in StandardKeys {
          standard := standard + [(key, values)];
        } else {
          var objects: seq<DynRecord> := [];
          var j := 0;
          while j < |values|
            invariant 0 <= j <= |values|
            invariant objects == Records(key, values[..j])
          {
            objects := objects + [DynRecord(key, values[j])];
            j := j + 1;
          }
          assert values[..j] == values;
          dynamic := dynamic + objects;
        }
        hasNewData := true;
      }
      i := i + 1;
    }
    assert c[..i] == c;
    updates := Updates(standard, dynamic);
  }

  /** `$addToSet` with `$each`: every value not yet in the array is appended, in order. The
      local duplicate check of lines 270-272 does the same. */
  function AddEach<T(==,!new)>(existing: seq<T>, values: seq<T>): (r: seq<T>)
    ensures existing <= r
    ensures forall x :: x in r <==> x in existing || x in values
  {
    if values == [] then existing
    else
      var before := AddEach(existing, values[..|values| - 1]);
      assert forall x :: x in values <==> x in values[..|values| - 1] || x == values[|values| - 1];
      var x := values[|values| - 1];
      if x in before then before else before + [x]
  }

  predicate NoDuplicates<T(==,!new)>(s: seq<T>) {
    forall i, j :: 0 <= i < j < |s| ==> s[i] != s[j]
  }

  /** An array without duplicates keeps none. */
  lemma {:induction false} AddEachNoDuplicates<T(!new)>(existing: seq<T>, values: seq<T>)
    requires NoDuplicates(existing)
    ensures NoDuplicates(AddEach(existing, values))
  {
    if values != [] {
      AddEachNoDuplicates(existing, values[..|values| - 1]);
    }
  }

  /** Values that are all present already change nothing. */
  lemma {:induction false} AddEachPresent<T(!new)>(existing: seq<T>, values: seq<T>)
    requires forall x :: x in values ==> x in existing
    ensures AddEach(existing, values) == existing
  {
    if values != [] {
      AddEachPresent(existing, values[..|values| - 1]);
    }
  }

  /** Adding `a` and then `b` is adding `a + b`. */
  lemma {:induction false} AddEachConcat<T(!new)>(existing: seq<T>, a: seq<T>, b: seq<T>)
    ensures AddEach(AddEach(existing, a), b) == AddEach(existing, a + b)
  {
    if b != [] {
      assert (a + b)[..|a + b| - 1] == a + b[..|b| - 1];
      AddEachConcat(existing, a, b[..|b| - 1]);
    } else {
      assert a + b == a;
    }
  }

  function GetList(f: map<string, seq<string>>, k: string): seq<string> {
    if k in f then f[k] else []
  }

  /** The standard `$addToSet` entries applied to the stored lists. */
  function ApplyStandard(f: map<string, seq<string>>, std: Dict<seq<string>>): map<string, seq<string>>
  {
    if std == [] then f
    else
      var before := ApplyStandard(f, std[..|std| - 1]);
      var e := std[|std| - 1];
      before[e.0 := AddEach(GetList(before, e.0), e.1)]
  }

  /** The stored `extracted_data` after `update_one` with `u`. */
  function ApplyUpdates(d: StoredData, u: Updates): StoredData {
    StoredData(ApplyStandard(d.fields, u.standard), AddEach(d.dynamic, u.dynamic))
  }

  // ---------------------------------------------------------------------------
  // The local merge
  // ---------------------------------------------------------------------------

  function GetSet(f: map<string, set<string>>, k: string): set<string> {
    if k in f then f[k] else {}
  }

  /** One finding merged into the local data: a standard key's set grows by the values,
      and any other key's records are appended when not present yet. */
  function MergeOne(l: LocalData, k: string, vs: seq<string>): LocalData {
    if IsStandard(k) then LocalData(l.fields[k := GetSet(l.fields, k) + AsSet(vs)], l.dynamic)
    else LocalData(l.fields, AddEach(l.dynamic, Records(k, vs)))
  }

  /** The local update loop of lines 259-273, over the findings `c`. */
  function MergeLocal(l: LocalData, c: Dict<seq<string>>): LocalData
  {
    if c == [] then l
    else
      var last := c[|c| - 1];
      MergeOne(MergeLocal(l, c[..|c| - 1]), last.0, last.1)
  }

  /** `l'` holds everything `l` holds: no key lost, no set shrunk, and the old records a
      prefix of the new ones. */
  predicate Grows(l: LocalData, l': LocalData) {
    && (forall k :: k in l.fields ==> k in l'.fields && l.fields[k] <= l'.fields[k])
    && l.dynamic <= l'.dynamic
  }

  lemma {:induction false} MergeLocalGrows(l: LocalData, c: Dict<seq<string>>)
    ensures Grows(l, MergeLocal(l, c))
  {
    if c != [] {
      MergeLocalGrows(l, c[..|c| - 1]);
    }
  }

  /** Keys the findings do not name keep their value, and the old records stay first. */
  lemma {:induction false} MergeLocalUntouched(l: LocalData, c: Dict<seq<string>>, k: string)
    requires forall i :: 0 <= i < |c| ==> c[i].0 != k
    ensures var m := MergeLocal(l, c);
      && (k in m.fields <==> k in l.fields)
      && (k in l.fields ==> m.fields[k] == l.fields[k])
      && l.dynamic <= m.dynamic
  {
    MergeLocalGrows(l, c);
    if c != [] {
      MergeLocalUntouched(l, c[..|c| - 1], k);
    }
  }

  /** Every value the findings give for key `k`. */
  function ValuesFor(c: Dict<seq<string>>, k: string): (r: set<string>)
    ensures forall x :: x in r <==> exists i :: 0 <= i < |c| && c[i].0 == k && x in c[i].1
  {
    if c == [] then {}
    else
      var init := c[..|c| - 1];
      assert forall i :: 0 <= i < |init| ==> init[i] == c[i];
      ValuesFor(init, k) + (if c[|c| - 1].0 == k then AsSet(c[|c| - 1].1) else {})
  }

  /** What a standard key holds after the merge: its old values and every value given
      for it. */
  lemma {:induction false} MergeLocalStandard(l: LocalData, c: Dict<seq<string>>, k: string)
    requires IsStandard(k) && exists i :: 0 <= i < |c| && c[i].0 == k
    ensures var m := MergeLocal(l, c);
      k in m.fields && m.fields[k] == GetSet(l.fields, k) + ValuesFor(c, k)
  {
    var init := c[..|c| - 1];
    var last := c[|c| - 1];
    var m := MergeLocal(l, init);
    if exists i :: 0 <= i < |init| && init[i].0 == k {
      MergeLocalStandard(l, init, k);
    } else {
      assert forall i :: 0 <= i < |init| ==> init[i] == c[i];
      assert last.0 == k;
      MergeLocalUntouched(l, init, k);
      assert ValuesFor(init, k) == {};
      assert GetSet(m.fields, k) == GetSet(l.fields, k);
    }
  }

  /** What the records hold after the merge: the old ones, and one per value of every key
      without a dedicated field. */
  lemma {:induction false} MergeLocalDynamic(l: LocalData, c: Dict<seq<string>>, k: string, x: string)
    ensures DynRecord(k, x) in MergeLocal(l, c).dynamic <==>
      DynRecord(k, x) in l.dynamic || exists i :: 0 <= i < |c| && !IsStandard(c[i].0) && c[i].0 == k && x in c[i].1
  {
    if c != [] {
      var init := c[..|c| - 1];
      MergeLocalDynamic(l, init, k, x);
      assert forall i :: 0 <= i < |init| ==> init[i] == c[i];
      var last := c[|c| - 1];
      if !IsStandard(last.0) && last.0 == k && x in last.1 {
        var j :| 0 <= j < |last.1| && last.1[j] == x;
        assert Records(last.0, last.1)[j] == DynRecord(k, x);
      }
      if DynRecord(k, x) in Records(last.0, last.1) {
        var j :| 0 <= j < |last.1| && Records(last.0, last.1)[j] == DynRecord(k, x);
        assert x in last.1;
      }
    }
  }

  /** All of `c` is already in `l`. */
  predicate Covered(l: LocalData, c: Dict<seq<string>>) {
    forall i :: 0 <= i < |c| ==>
      if IsStandard(c[i].0) then c[i].0 in l.fields && AsSet(c[i].1) <= l.fields[c[i].0]
      else forall r :: r in Records(c[i].0, c[i].1) ==> r in l.dynamic
  }

  lemma CoveredGrows(l: LocalData, l': LocalData, c: Dict<seq<string>>)
    requires Covered(l, c) && Grows(l, l')
    ensures Covered(l', c)
  {
    forall i | 0 <= i < |c| && !IsStandard(c[i].0)
      ensures forall r :: r in Records(c[i].0, c[i].1) ==> r in l'.dynamic
    {
      assert forall r :: r in l.dynamic ==> r in l'.dynamic;
    }
  }

  /** After the merge every finding is present. */
  lemma {:induction false} MergeLocalCovers(l: LocalData, c: Dict<seq<string>>)
    ensures Covered(MergeLocal(l, c), c)
  {
    if c != [] {
      var init := c[..|c| - 1];
      var last := c[|c| - 1];
      var m := MergeLocal(l, init);
      var m' := MergeLocal(l, c);
      MergeLocalCovers(l, init);
      assert Grows(m, m');
      CoveredGrows(m, m', init);
      forall i | 0 <= i < |c| ensures
        if IsStandard(c[i].0) then c[i].0 in m'.fields && AsSet(c[i].1) <= m'.fields[c[i].0]
        else forall r :: r in Records(c[i].0, c[i].1) ==> r in m'.dynamic
      {
        if i < |init| {
          assert c[i] == init[i];
        }
      }
    }
  }

  /** Findings that are all present change nothing. */
  lemma {:induction false} MergeLocalCoveredNoop(l: LocalData, c: Dict<seq<string>>)
    requires Covered(l, c)
    ensures MergeLocal(l, c) == l
  {
    if c != [] {
      var init := c[..|c| - 1];
      var last := c[|c| - 1];
      assert Covered(l, init) by {
        forall i | 0 <= i < |init| ensures init[i] == c[i] { }
      }
      MergeLocalCoveredNoop(l, init);
      if IsStandard(last.0) {
        var prior := GetSet(l.fields, last.0);
        assert AsSet(c[|c| - 1].1) <= prior;
        assert prior + AsSet(last.1) == prior;
        assert l.fields[last.0 := prior] == l.fields;
      } else {
        AddEachPresent(l.dynamic, Records(last.0, last.1));
      }
    }
  }

  /** Merging the same findings twice leaves the local data as the first merge left it. */
  lemma MergeLocalIdempotent(l: LocalData, c: Dict<seq<string>>)
    ensures MergeLocal(MergeLocal(l, c), c) == MergeLocal(l, c)
  {
    MergeLocalCovers(l, c);
    MergeLocalCoveredNoop(MergeLocal(l, c), c);
  }

  /** What any key's set holds after the merge: a standard key named by the findings
      gains every value given for it, and every other key keeps what it had. */
  lemma {:induction false} MergeLocalFields(l: LocalData, c: Dict<seq<string>>, k: string)
    ensures var m := MergeLocal(l, c);
      && (k in m.fields <==> k in l.fields || (IsStandard(k) && exists i :: 0 <= i < |c| && c[i].0 == k))
      && GetSet(m.fields, k) == GetSet(l.fields, k) + (if IsStandard(k) then ValuesFor(c, k) else {})
  {
    if c != [] {
      var init := c[..|c| - 1];
      MergeLocalFields(l, init, k);
      assert forall i :: 0 <= i < |init| ==> init[i] == c[i];
    }
  }

  /** The order of two merges does not matter to the local copy: the same sets under the
      same keys, and the same records, although not necessarily in the same order. */
  lemma MergeLocalCommutes(l: LocalData, a: Dict<seq<string>>, b: Dict<seq<string>>)
    ensures var ab := MergeLocal(MergeLocal(l, a), b);
      var ba := MergeLocal(MergeLocal(l, b), a);
      && ab.fields == ba.fields
      && forall r :: r in ab.dynamic <==> r in ba.dynamic
  {
    var la, lb := MergeLocal(l, a), MergeLocal(l, b);
    var ab, ba := MergeLocal(la, b), MergeLocal(lb, a);
    forall k ensures (k in ab.fields <==> k in ba.fields) && GetSet(ab.fields, k) == GetSet(ba.fields, k) {
      MergeLocalFields(l, a, k);
      MergeLocalFields(l, b, k);
      MergeLocalFields(la, b, k);
      MergeLocalFields(lb, a, k);
    }
    assert ab.fields == ba.fields by {
      forall k | k in ab.fields ensures ab.fields[k] == ba.fields[k] {
        assert GetSet(ab.fields, k) == GetSet(ba.fields, k);
      }
    }
    forall r ensures r in ab.dynamic <==> r in ba.dynamic {
      MergeLocalDynamic(l, a, r.kind, r.value);
      MergeLocalDynamic(l, b, r.kind, r.value);
      MergeLocalDynamic(la, b, r.kind, r.value);
      MergeLocalDynamic(lb, a, r.kind, r.value);
    }
  }

  // ---------------------------------------------------------------------------
  // The store and the local copy agree
  // ---------------------------------------------------------------------------

  /** The local data is the stored data with each standard list read as a set. */
  predicate Mirrors(d: StoredData, l: LocalData) {
    && d.fields.Keys == l.fields.Keys
    && (forall k :: k in d.fields ==> AsSet(d.fields[k]) == l.fields[k])
    && d.dynamic == l.dynamic
  }

  lemma LocalOfMirrors(d: StoredData)
    ensures Mirrors(d, LocalOf(d))
  {
  }

  /** One finding applied to both sides keeps them in agreement. */
  lemma MirrorsStep(d: StoredData, l: LocalData, k: string, vs: seq<string>)
    requires Mirrors(d, l) && vs != []
    ensures IsStandard(k) ==> Mirrors(StoredData(d.fields[k := AddEach(GetList(d.fields, k), vs)], d.dynamic), MergeOne(l, k, vs))
    ensures !IsStandard(k) ==> Mirrors(StoredData(d.fields, AddEach(d.dynamic, Records(k, vs))), MergeOne(l, k, vs))
  {
    if IsStandard(k) {
      var f := d.fields[k := AddEach(GetList(d.fields, k), vs)];
      assert AsSet(f[k]) == GetSet(l.fields, k) + AsSet(vs);
    }
  }

  /** The store after the update and the merged local copy still agree. */
  lemma {:induction false} ApplyMirrorsMerge(d: StoredData, l: LocalData, c: Dict<seq<string>>)
    requires Mirrors(d, l)
    requires forall i :: 0 <= i < |c| ==> c[i].1 != []
    ensures Mirrors(ApplyUpdates(d, UpdatesOf(c)), MergeLocal(l, c))
  {
    if c != [] {
      var init := c[..|c| - 1];
      var last := c[|c| - 1];
      ApplyMirrorsMerge(d, l, init);
      var u := UpdatesOf(init);
      var before := ApplyUpdates(d, u);
      MirrorsStep(before, MergeLocal(l, init), last.0, last.1);
      if IsStandard(last.0) {
        assert UpdatesOf(c).standard[..|UpdatesOf(c).standard| - 1] == u.standard;
      } else {
        AddEachConcat(d.dynamic, u.dynamic, Records(last.0, last.1));
      }
    }
  }

  /** The whole of `_update_intelligence` on the stored and the local data: the write and
      the local merge happen only when something survives normalisation. */
  function StoredAfter(d: StoredData, intel: Dict<RawValue>): StoredData {
    var c := Normalize(intel);
    if HasNewData(c) then ApplyUpdates(d, UpdatesOf(c)) else d
  }

  function LocalAfter(l: LocalData, intel: Dict<RawValue>): LocalData {
    var c := Normalize(intel);
    if HasNewData(c) then MergeLocal(l, c) else l
  }

  /** A local copy that mirrors the store still mirrors it after the update. */
  lemma UpdateKeepsMirror(d: StoredData, l: LocalData, intel: Dict<RawValue>)
    requires Mirrors(d, l)
    ensures Mirrors(StoredAfter(d, intel), LocalAfter(l, intel))
  {
    ApplyMirrorsMerge(d, l, Normalize(intel));
  }

  /** Applying the same findings again changes nothing locally. */
  lemma UpdateIdempotent(l: LocalData, intel: Dict<RawValue>)
    ensures LocalAfter(LocalAfter(l, intel), intel) == LocalAfter(l, intel)
  {
    MergeLocalIdempotent(l, Normalize(intel));
  }

  /** Two updates in either order leave the local copy with the same findings. */
  lemma UpdateCommutes(l: LocalData, a: Dict<RawValue>, b: Dict<RawValue>)
    ensures var ab := LocalAfter(LocalAfter(l, a), b);
      var ba := LocalAfter(LocalAfter(l, b), a);
      && ab.fields == ba.fields
      && forall r :: r in ab.dynamic <==> r in ba.dynamic
  {
    MergeLocalCommutes(l, Normalize(a), Normalize(b));
  }

  /** The store after two updates in either order holds the same values under the same
      keys, and the same records, each read as a set: `$addToSet` appends in merge order,
      so the lists themselves may differ in order. */
  lemma StoredAfterCommutesAsSets(d: StoredData, a: Dict<RawValue>, b: Dict<RawValue>)
    ensures var ab := StoredAfter(StoredAfter(d, a), b);
      var ba := StoredAfter(StoredAfter(d, b), a);
      && ab.fields.Keys == ba.fields.Keys
      && (forall k :: k in ab.fields ==> AsSet(ab.fields[k]) == AsSet(ba.fields[k]))
      && forall r :: r in ab.dynamic <==> r in ba.dynamic
  {
    var l := LocalOf(d);
    LocalOfMirrors(d);
    UpdateKeepsMirror(d, l, a);
    UpdateKeepsMirror(StoredAfter(d, a), LocalAfter(l, a), b);
    UpdateKeepsMirror(d, l, b);
    UpdateKeepsMirror(StoredAfter(d, b), LocalAfter(l, b), a);
    UpdateCommutes(l, a, b);
  }

  /** The stored lists themselves do depend on the order: `a@x` then `b@y` is stored as
      `["a@x", "b@y"]`, the other order as `["b@y", "a@x"]`. */
  lemma StoredOrderMatters()
    ensures var d := StoredData(map["upi" := []], []);
      var a, b := Updates([("upi", ["a@x"])], []), Updates([("upi", ["b@y"])], []);
      && ApplyUpdates(ApplyUpdates(d, a), b).fields["upi"] == ["a@x", "b@y"]
      && ApplyUpdates(ApplyUpdates(d, b), a).fields["upi"] == ["b@y", "a@x"]
  {
    assert AddEach([], ["a@x"]) == ["a@x"] && AddEach([], ["b@y"]) == ["b@y"];
    assert AddEach(["a@x"], ["b@y"]) == ["a@x", "b@y"];
    assert AddEach(["b@y"], ["a@x"]) == ["b@y", "a@x"];
  }

  // ---------------------------------------------------------------------------
  // The two storage scenarios of tests/verify_storage.py
  // ---------------------------------------------------------------------------

  /** `{"upi": ["alice@bank"]}` becomes the entry `extracted_data.upi: {"$each": ["alice@bank"]}`. */
  lemma StandardKeyUpdate()
    ensures var c := Normalize([("upi", List([Some("alice@bank")]))]);
      HasNewData(c) && UpdatesOf(c) == Updates([("upi", ["alice@bank"])], [])
  {
    var c := Normalize([("upi", List([Some("alice@bank")]))]);
    assert ValidItems([Some("alice@bank")]) == ["alice@bank"];
    assert c == [("upi", ["alice@bank"])];
    assert IsStandard("upi");
  }

  /** Two keys with no dedicated field become `{type, value}` records, in order. */
  lemma DynamicKeyUpdate()
    ensures var c := Normalize([("crypto_wallet", List([Some("1A1zP1...")])), ("otp", List([Some("123456")]))]);
      HasNewData(c)
      && UpdatesOf(c) == Updates([], [DynRecord("crypto_wallet", "1A1zP1..."), DynRecord("otp", "123456")])
  {
    DynamicSampleNormalized();
    DynamicSampleRouted();
  }

  lemma DynamicSampleNormalized()
    ensures Normalize([("crypto_wallet", List([Some("1A1zP1...")])), ("otp", List([Some("123456")]))])
      == [("crypto_wallet", ["1A1zP1..."]), ("otp", ["123456"])]
  {
    var wallet := ("crypto_wallet", List([Some("1A1zP1...")]));
    var otp := ("otp", List([Some("123456")]));
    assert ValidItems([Some("1A1zP1...")]) == ["1A1zP1..."];
    assert ValidItems([Some("123456")]) == ["123456"];
    assert [wallet, otp][..1] == [wallet] && [wallet][..0] == [];
  }

  lemma DynamicSampleRouted()
    ensures var c := [("crypto_wallet", ["1A1zP1..."]), ("otp", ["123456"])];
      HasNewData(c)
      && UpdatesOf(c) == Updates([], [DynRecord("crypto_wallet", "1A1zP1..."), DynRecord("otp", "123456")])
  {
    var c := [("crypto_wallet", ["1A1zP1..."]), ("otp", ["123456"])];
    assert !IsStandard("crypto_wallet") && !IsStandard("otp");
    assert c[..1] == [("crypto_wallet", ["1A1zP1..."])] && c[..1][..0] == [];
    assert Records("crypto_wallet", ["1A1zP1..."]) == [DynRecord("crypto_wallet", "1A1zP1...")];
    assert Records("otp", ["123456"]) == [DynRecord("otp", "123456")];
  }
}
