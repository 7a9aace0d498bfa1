/** `useErrors` (src/index.ts): the response schemas a route declares for the
    errors it may raise. Errors are resolved by name against the merged error
    table or passed as kinds; they are grouped by status code in a `Map`
    that keeps first-seen order; each group becomes one reference to a
    shared schema, carrying one example per code and the catalog's reason
    phrase as its description. */
module SchemaGrouper {
  import opened Wrappers
  import opened Kinds
  import AppErrors

  /** A lookup of the kind the catalog declares for a status code:
      `httpErrorsByStatusCode[statusCode]`, `None` for `undefined`. `UseErrors`
      passes `AppErrors.HttpErrorsByStatusCode`. */
  type Catalog = int -> Option<ErrorKind>

  /** An element of the argument array: a key of the error table, or a kind. */
  datatype ErrorRef = Named(name: string) | Given(kind: ErrorKind)

  /** `UseErrorItem`: what the grouper keeps of each error. */
  datatype UseErrorItem = UseErrorItem(
    statusCode: int,
    code: string,
    message: string,
    description: Option<string>,
    example: Option<Example>)

  /** One entry of the `codes` map: a status code and its items, in order. */
  datatype Bucket = Bucket(statusCode: int, items: seq<UseErrorItem>)

  /** The `value` of one `x-examples` entry. */
  datatype ExampleValue = ExampleValue(
    statusCode: int,
    code: string,
    message: string,
    validation: Option<seq<ValidationItem>>,
    validationContext: Option<string>)

  /** One `x-examples` entry: summary, description and value. */
  datatype ExampleDoc = ExampleDoc(summary: string, description: Option<string>, value: ExampleValue)

  /** `Type.Ref($id, {...})`: the referenced schema's `$id`, the examples by
      code, and the description. */
  datatype SchemaRef = SchemaRef(ref: string, examples: map<string, ExampleDoc>, description: string)

  /** The item for one argument. A key missing from the table leaves the
      source reading a property of `undefined`, which throws. The
      description is kept only when the kind itself is passed. */
  function ItemOf(all: map<string, ErrorKind>, ref: ErrorRef): (r: Result<UseErrorItem, Fault>)
    ensures ref.Named? ==> (r.Ok? <==> ref.name in all)
    ensures ref.Named? && ref.name !in all ==> r == Err(UnknownErrorName(ref.name))
    ensures r.Ok? ==>
      var kind := if ref.Named? then all[ref.name] else ref.kind;
      && r.value.statusCode == kind.statusCode && r.value.code == kind.code
      && r.value.message == kind.message && r.value.example == kind.example
      && r.value.description == (if ref.Named? then None else kind.description)
  {
    match ref
    case Named(name) =>
      if name in all then
        var error := all[name];
        Ok(UseErrorItem(error.statusCode, error.code, error.message, None, error.example))
      else
        Err(UnknownErrorName(name))
    case Given(kind) =>
      Ok(UseErrorItem(kind.statusCode, kind.code, kind.message, kind.description, kind.example))
  }

  /** Resolves every argument in order; the first unknown key aborts. */
  function Resolve(all: map<string, ErrorKind>, refs: seq<ErrorRef>): (r: Result<seq<UseErrorItem>, Fault>)
    ensures r.Ok? <==> forall i :: 0 <= i < |refs| ==> ItemOf(all, refs[i]).Ok?
    ensures r.Ok? ==> |r.value| == |refs| && forall i :: 0 <= i < |refs| ==> ItemOf(all, refs[i]) == Ok(r.value[i])
    ensures r.Err? ==> r.error.UnknownErrorName?
  {
    if refs == [] then Ok([])
    else
      match Resolve(all, refs[..|refs| - 1])
      case Err(fault) => Err(fault)
      case Ok(items) =>
        match ItemOf(all, refs[|refs| - 1])
        case Err(fault) => Err(fault)
        case Ok(item) => Ok(items + [item])
  }

  /** `codes.has(statusCode)`, with the position of the entry. */
  function Find(codes: seq<Bucket>, statusCode: int): (k: Option<nat>)
    ensures k.Some? ==> k.value < |codes| && codes[k.value].statusCode == statusCode
    ensures k.None? ==> forall i :: 0 <= i < |codes| ==> codes[i].statusCode != statusCode
  {
    if codes == [] then None
    else if codes[0].statusCode == statusCode then Some(0)
    else
      match Find(codes[1..], statusCode)
      case Some(k) => Some(k + 1)
      case None => None
  }

  /** One step of the first loop: push onto the entry of the item's status,
      or start a new entry at the end. */
  function Add(codes: seq<Bucket>, item: UseErrorItem): seq<Bucket> {
    match Find(codes, item.statusCode)
    case Some(k) => codes[k := Bucket(codes[k].statusCode, codes[k].items + [item])]
    case None => codes + [Bucket(item.statusCode, [item])]
  }

  /** The `codes` map after the first loop has seen `items`. */
  function Group(items: seq<UseErrorItem>): seq<Bucket> {
    if items == [] then [] else Add(Group(items[..|items| - 1]), items[|items| - 1])
  }

  /** The items with a given status code, in input order. */
  function Filter(items: seq<UseErrorItem>, statusCode: int): seq<UseErrorItem> {
    if items == [] then []
    else (if items[0].statusCode == statusCode then [items[0]] else []) + Filter(items[1..], statusCode)
  }

  /** The status codes of a sequence of items, as a set. */
  function StatusesOf(items: seq<UseErrorItem>): set<int> {
    set i | 0 <= i < |items| :: items[i].statusCode
  }

  /** The position of the first item with a given status code (|items| when
      there is none). */
  function FirstIndex(items: seq<UseErrorItem>, statusCode: int): (k: nat)
    ensures k <= |items|
    ensures k < |items| ==> items[k].statusCode == statusCode
    ensures forall i :: 0 <= i < k ==> items[i].statusCode != statusCode
  {
    if items == [] then 0
    else if items[0].statusCode == statusCode then 0
    else 1 + FirstIndex(items[1..], statusCode)
  }

  /** No two buckets share a status code. */
  predicate DistinctStatuses(codes: seq<Bucket>) {
    forall i, j :: 0 <= i < j < |codes| ==> codes[i].statusCode != codes[j].statusCode
  }

  /** The example documented for one item: `{statusCode, code, message}`,
      overridden by the fields its `example` sets. */
  function ExampleOf(item: UseErrorItem): (doc: ExampleDoc)
    ensures doc.summary == item.code && doc.description == item.description
    ensures doc.value.statusCode == item.statusCode && doc.value.code == item.code
    ensures item.example.None? ==> doc.value == ExampleValue(item.statusCode, item.code, item.message, None, None)
    ensures item.example.Some? ==>
      && doc.value.message == item.example.value.message.GetOr(item.message)
      && doc.value.validation == item.example.value.validation
      && doc.value.validationContext == item.example.value.validationContext
  {
    var base := ExampleValue(item.statusCode, item.code, item.message, None, None);
    var value :=
      match item.example
      case None => base
      case Some(ex) =>
        base.(message := ex.message.GetOr(base.message),
              validation := ex.validation,
              validationContext := ex.validationContext);
    ExampleDoc(item.code, item.description, value)
  }

  /** `Object.fromEntries(items.map(...))`: entries keyed by code, a later
      entry replacing an earlier one with the same code. */
  function Examples(items: seq<UseErrorItem>): map<string, ExampleDoc> {
    if items == [] then map[]
    else Examples(items[..|items| - 1])[items[|items| - 1].code := ExampleOf(items[|items| - 1])]
  }

  /** The `$id` of the schema a status refers to. */
  function RefFor(statusCode: int): (ref: string)
    ensures ref == "BadRequestError" <==> statusCode == 400
    ensures ref == "HttpError" <==> statusCode != 400
  {
    if statusCode == 400 then "BadRequestError" else "HttpError"
  }

  /** The schema for one bucket; its description is the catalog's message for
      the status, and a status without a catalog entry throws. */
  function SchemaOf(catalog: Catalog, bucket: Bucket): (r: Result<SchemaRef, Fault>)
    ensures r.Ok? <==> catalog(bucket.statusCode).Some?
    ensures r.Err? ==> r.error == NoCatalogEntry(bucket.statusCode)
    ensures r.Ok? ==>
      && r.value.ref == RefFor(bucket.statusCode) && r.value.examples == Examples(bucket.items)
      && r.value.description == catalog(bucket.statusCode).value.message
  {
    match catalog(bucket.statusCode)
    case None => Err(NoCatalogEntry(bucket.statusCode))
    case Some(entry) => Ok(SchemaRef(RefFor(bucket.statusCode), Examples(bucket.items), entry.message))
  }

  /** The `schemas` record after the second loop has seen `codes`. */
  function SchemasOf(catalog: Catalog, codes: seq<Bucket>): Result<map<int, SchemaRef>, Fault> {
    if codes == [] then Ok(map[])
    else
      match SchemasOf(catalog, codes[..|codes| - 1])
      case Err(fault) => Err(fault)
      case Ok(schemas) =>
        match SchemaOf(catalog, codes[|codes| - 1])
        case Err(fault) => Err(fault)
        case Ok(schema) => Ok(schemas[codes[|codes| - 1].statusCode := schema])
  }

  /** What `useErrors` returns, or the fault it throws. */
  function UseErrorsSpec(catalog: Catalog, all: map<string, ErrorKind>, refs: seq<ErrorRef>): Result<map<int, SchemaRef>, Fault> {
    match Resolve(all, refs)
    case Err(fault) => Err(fault)
    case Ok(items) => SchemasOf(catalog, Group(items))
  }

  /** Once resolving a prefix of the arguments fails, resolving all of them
      fails with the same fault. */
  lemma {:induction false} ResolveStopsAtFirstFault(all: map<string, ErrorKind>, prefix: seq<ErrorRef>, refs: seq<ErrorRef>)
    requires prefix <= refs && Resolve(all, prefix).Err?
    ensures Resolve(all, refs) == Resolve(all, prefix)
    decreases |refs|
  {
    if |refs| > |prefix| {
      assert prefix <= refs[..|refs| - 1];
      ResolveStopsAtFirstFault(all, prefix, refs[..|refs| - 1]);
    } else {
      assert prefix == refs;
    }
  }

  /** Once the schemas of a prefix of the entries fail, the schemas of all of
      them fail with the same fault. */
  lemma {:induction false} SchemasStopAtFirstFault(catalog: Catalog, prefix: seq<Bucket>, codes: seq<Bucket>)
    requires prefix <= codes && SchemasOf(catalog, prefix).Err?
    ensures SchemasOf(catalog, codes) == SchemasOf(catalog, prefix)
    decreases |codes|
  {
    if |codes| > |prefix| {
      assert prefix <= codes[..|codes| - 1];
      SchemasStopAtFirstFault(catalog, prefix, codes[..|codes| - 1]);
    } else {
      assert prefix == codes;
    }
  }

  /** The status codes of the entries, as a set. */
  function BucketStatuses(codes: seq<Bucket>): set<int> {
    set i | 0 <= i < |codes| :: codes[i].statusCode
  }

  /** Resolution fails exactly at the first argument that names no kind of
      the table, with that name. */
  lemma {:induction false} ResolveFailsAtFirstUnknownName(all: map<string, ErrorKind>, refs: seq<ErrorRef>)
    requires Resolve(all, refs).Err?
    ensures exists k :: (0 <= k < |refs| && ItemOf(all, refs[k]) == Err(Resolve(all, refs).error)
      && refs[k].Named? && refs[k].name !in all
      && forall i :: 0 <= i < k ==> ItemOf(all, refs[i]).Ok?)
    decreases |refs|
  {
    var front := refs[..|refs| - 1];
    if Resolve(all, front).Err? {
      ResolveFailsAtFirstUnknownName(all, front);
      var k :| 0 <= k < |front| && ItemOf(all, front[k]) == Err(Resolve(all, front).error)
        && front[k].Named? && front[k].name !in all
        && forall i :: 0 <= i < k ==> ItemOf(all, front[i]).Ok?;
      assert refs[k] == front[k];
      assert forall i :: 0 <= i < k ==> refs[i] == front[i];
    } else {
      var k := |refs| - 1;
      assert forall i :: 0 <= i < k ==> refs[i] == front[i];
      assert ItemOf(all, refs[k]) == Err(Resolve(all, refs).error);
    }
  }

  /** Filtering distributes over appending one item. */
  lemma {:induction false} FilterAppendOne(items: seq<UseErrorItem>, item: UseErrorItem, statusCode: int)
    ensures Filter(items + [item], statusCode) ==
      Filter(items, statusCode) + (if item.statusCode == statusCode then [item] else [])
    decreases |items|
  {
    if items != [] {
      assert (items + [item])[1..] == items[1..] + [item];
      FilterAppendOne(items[1..], item, statusCode);
    }
  }

  /** The statuses of one more item. */
  lemma StatusesOfAppendOne(items: seq<UseErrorItem>, item: UseErrorItem)
    ensures StatusesOf(items + [item]) == StatusesOf(items) + {item.statusCode}
  {
    var all := items + [item];
    forall s | s in StatusesOf(all) ensures s in StatusesOf(items) + {item.statusCode} {
      var i :| 0 <= i < |all| && all[i].statusCode == s;
      if i < |items| {
        assert items[i] == all[i];
      }
    }
    forall s | s in StatusesOf(items) ensures s in StatusesOf(all) {
      var i :| 0 <= i < |items| && items[i].statusCode == s;
      assert all[i] == items[i];
    }
    assert all[|items|] == item;
  }

  /** One step of the first loop adds the item's status to the entries'
      statuses and keeps them distinct; an existing entry keeps its place. */
  lemma AddStatuses(codes: seq<Bucket>, item: UseErrorItem)
    requires DistinctStatuses(codes)
    ensures DistinctStatuses(Add(codes, item))
    ensures BucketStatuses(Add(codes, item)) == BucketStatuses(codes) + {item.statusCode}
  {
    var next := Add(codes, item);
    match Find(codes, item.statusCode)
    case Some(k) =>
      assert forall i :: 0 <= i < |codes| ==> next[i].statusCode == codes[i].statusCode;
      assert item.statusCode in BucketStatuses(codes);
    case None =>
      forall s | s in BucketStatuses(next) ensures s in BucketStatuses(codes) + {item.statusCode} {
        var i :| 0 <= i < |next| && next[i].statusCode == s;
        if i < |codes| {
          assert next[i] == codes[i];
        }
      }
      forall s | s in BucketStatuses(codes) ensures s in BucketStatuses(next) {
        var i :| 0 <= i < |codes| && codes[i].statusCode == s;
        assert next[i] == codes[i];
      }
      assert next[|codes|].statusCode == item.statusCode;
  }

  /** The first loop yields one entry per distinct status code of the
      input. */
  lemma {:induction false} GroupHasOneEntryPerStatus(items: seq<UseErrorItem>)
    ensures DistinctStatuses(Group(items))
    ensures BucketStatuses(Group(items)) == StatusesOf(items)
    decreases |items|
  {
    if items != [] {
      var front := items[..|items| - 1];
      var item := items[|items| - 1];
      assert items == front + [item];
      GroupHasOneEntryPerStatus(front);
      AddStatuses(Group(front), item);
      StatusesOfAppendOne(front, item);
    }
  }

  /** Each entry of the first loop's result holds exactly the input's items
      with its status code, in input order, and at least one. */
  lemma {:induction false} GroupEntriesAreFilters(items: seq<UseErrorItem>)
    ensures forall i :: 0 <= i < |Group(items)| ==>
      Group(items)[i].items == Filter(items, Group(items)[i].statusCode) && Group(items)[i].items != []
    decreases |items|
  {
    if items != [] {
      var front := items[..|items| - 1];
      var item := items[|items| - 1];
      assert items == front + [item];
      GroupEntriesAreFilters(front);
      GroupHasOneEntryPerStatus(front);
      var g := Group(front);
      var next := Group(items);
      forall i | 0 <= i < |next|
        ensures next[i].items == Filter(items, next[i].statusCode) && next[i].items != []
      {
        FilterAppendOne(front, item, next[i].statusCode);
        if i == |g| {
          assert next[i].statusCode == item.statusCode;
          assert item.statusCode !in BucketStatuses(g);
          FilterOfAbsentStatus(front, item.statusCode);
        }
      }
    }
  }

  /** No item has a status code outside the input's statuses. */
  lemma {:induction false} FilterOfAbsentStatus(items: seq<UseErrorItem>, statusCode: int)
    requires statusCode !in StatusesOf(items)
    ensures Filter(items, statusCode) == []
    decreases |items|
  {
    if items != [] {
      assert items[0].statusCode in StatusesOf(items);
      assert StatusesOf(items[1..]) <= StatusesOf(items) by {
        forall s | s in StatusesOf(items[1..]) ensures s in StatusesOf(items) {
          var i :| 0 <= i < |items[1..]| && items[1..][i].statusCode == s;
          assert items[i + 1] == items[1..][i];
        }
      }
      FilterOfAbsentStatus(items[1..], statusCode);
    }
  }

  /** Appending an item leaves the first position of an earlier status
      alone, and puts a new status at the end. */
  lemma FirstIndexAppendOne(items: seq<UseErrorItem>, item: UseErrorItem, statusCode: int)
    ensures statusCode in StatusesOf(items) ==>
      FirstIndex(items + [item], statusCode) == FirstIndex(items, statusCode) < |items|
    ensures statusCode !in StatusesOf(items) && statusCode == item.statusCode ==>
      FirstIndex(items + [item], statusCode) == |items|
  {
    var all := items + [item];
    var r1 := FirstIndex(all, statusCode);
    var r2 := FirstIndex(items, statusCode);
    if statusCode in StatusesOf(items) {
      var m :| 0 <= m < |items| && items[m].statusCode == statusCode;
      assert r2 <= m;
      assert all[r2] == items[r2];
    } else if statusCode == item.statusCode {
      assert all[|items|] == item;
    }
  }

  /** One step of the first loop keeps the entries in place; a new entry,
      for a status not seen before, goes at the end. */
  lemma AddKeepsPlaces(codes: seq<Bucket>, item: UseErrorItem)
    ensures |codes| <= |Add(codes, item)| <= |codes| + 1
    ensures forall i :: 0 <= i < |codes| ==> Add(codes, item)[i].statusCode == codes[i].statusCode
    ensures |Add(codes, item)| > |codes| ==>
      Add(codes, item)[|codes|].statusCode == item.statusCode && item.statusCode !in BucketStatuses(codes)
  {
  }

  /** The entries come in the order in which their status codes first
      appear in the input. */
  lemma {:induction false} GroupKeepsFirstSeenOrder(items: seq<UseErrorItem>)
    ensures forall i, j :: 0 <= i < j < |Group(items)| ==>
      FirstIndex(items, Group(items)[i].statusCode) < FirstIndex(items, Group(items)[j].statusCode)
    decreases |items|
  {
    if items != [] {
      var front := items[..|items| - 1];
      var item := items[|items| - 1];
      assert items == front + [item];
      GroupKeepsFirstSeenOrder(front);
      GroupHasOneEntryPerStatus(front);
      var g := Group(front);
      var next := Group(items);
      AddKeepsPlaces(g, item);
      assert next == Add(g, item);
      forall i | 0 <= i < |g|
        ensures FirstIndex(items, next[i].statusCode) == FirstIndex(front, g[i].statusCode) < |front|
      {
        assert g[i].statusCode in BucketStatuses(g);
        FirstIndexAppendOne(front, item, g[i].statusCode);
      }
      if |next| > |g| {
        FirstIndexAppendOne(front, item, item.statusCode);
      }
    }
  }

  /** The codes of a sequence of items, as a set. */
  function CodesOf(items: seq<UseErrorItem>): set<string> {
    set i | 0 <= i < |items| :: items[i].code
  }

  /** No later item shares the code of the item at `i`. */
  predicate LastWithItsCode(items: seq<UseErrorItem>, i: int)
    requires 0 <= i < |items|
  {
    forall j :: i < j < |items| ==> items[j].code != items[i].code
  }

  /** The codes of one more item. */
  lemma CodesOfAppendOne(items: seq<UseErrorItem>, item: UseErrorItem)
    ensures CodesOf(items + [item]) == CodesOf(items) + {item.code}
  {
    var all := items + [item];
    forall c | c in CodesOf(all) ensures c in CodesOf(items) + {item.code} {
      var i :| 0 <= i < |all| && all[i].code == c;
      if i < |items| {
        assert items[i] == all[i];
      }
    }
    forall c | c in CodesOf(items) ensures c in CodesOf(all) {
      var i :| 0 <= i < |items| && items[i].code == c;
      assert all[i] == items[i];
    }
    assert all[|items|] == item;
  }

  /** `x-examples` has one entry per distinct code of the items. */
  lemma {:induction false} ExamplesKeyedByCode(items: seq<UseErrorItem>)
    ensures Examples(items).Keys == CodesOf(items)
    decreases |items|
  {
    if items != [] {
      var front := items[..|items| - 1];
      assert items == front + [items[|items| - 1]];
      ExamplesKeyedByCode(front);
      CodesOfAppendOne(front, items[|items| - 1]);
    }
  }

  /** The `x-examples` entry for a code documents the last item with that
      code. */
  lemma {:induction false} ExamplesLastWins(items: seq<UseErrorItem>)
    ensures forall i :: 0 <= i < |items| && LastWithItsCode(items, i) ==>
      items[i].code in Examples(items) && Examples(items)[items[i].code] == ExampleOf(items[i])
    decreases |items|
  {
    if items != [] {
      var front := items[..|items| - 1];
      var last := items[|items| - 1];
      ExamplesLastWins(front);
      assert Examples(items) == Examples(front)[last.code := ExampleOf(last)];
      forall i | 0 <= i < |front| && LastWithItsCode(items, i)
        ensures items[i].code in Examples(items) && Examples(items)[items[i].code] == ExampleOf(items[i])
      {
        assert last.code != items[i].code;
        assert front[i] == items[i];
        assert LastWithItsCode(front, i);
      }
    }
  }

  /** The second loop succeeds exactly when every status has a catalog
      entry. */
  lemma {:induction false} SchemasSucceedIffCatalogued(catalog: Catalog, codes: seq<Bucket>)
    ensures SchemasOf(catalog, codes).Ok? <==>
      forall i :: 0 <= i < |codes| ==> catalog(codes[i].statusCode).Some?
    decreases |codes|
  {
    if codes != [] {
      var front := codes[..|codes| - 1];
      assert forall i :: 0 <= i < |front| ==> front[i] == codes[i];
      SchemasSucceedIffCatalogued(catalog, front);
    }
  }

  /** The statuses of the entries grow by the last entry's status. */
  lemma BucketStatusesAppendOne(front: seq<Bucket>, last: Bucket)
    ensures BucketStatuses(front + [last]) == BucketStatuses(front) + {last.statusCode}
  {
    var codes := front + [last];
    forall s | s in BucketStatuses(codes) ensures s in BucketStatuses(front) + {last.statusCode} {
      var i :| 0 <= i < |codes| && codes[i].statusCode == s;
      if i < |front| {
        assert front[i] == codes[i];
      }
    }
    forall s | s in BucketStatuses(front) ensures s in BucketStatuses(codes) {
      var i :| 0 <= i < |front| && front[i].statusCode == s;
      assert codes[i] == front[i];
    }
    assert codes[|front|] == last;
  }

  /** On success, the second loop holds one schema per status. */
  lemma {:induction false} SchemasKeyedByStatus(catalog: Catalog, codes: seq<Bucket>)
    requires SchemasOf(catalog, codes).Ok?
    ensures SchemasOf(catalog, codes).value.Keys == BucketStatuses(codes)
    decreases |codes|
  {
    if codes != [] {
      var front := codes[..|codes| - 1];
      var last := codes[|codes| - 1];
      assert codes == front + [last];
      SchemasKeyedByStatus(catalog, front);
      BucketStatusesAppendOne(front, last);
      var schema := SchemaOf(catalog, last).value;
      assert SchemasOf(catalog, codes).value == SchemasOf(catalog, front).value[last.statusCode := schema];
    }
  }

  /** On success, with distinct statuses, each entry's schema is built from
      that entry alone. */
  lemma {:induction false} SchemasOfEntries(catalog: Catalog, codes: seq<Bucket>)
    requires DistinctStatuses(codes) && SchemasOf(catalog, codes).Ok?
    ensures forall i :: 0 <= i < |codes| ==>
      && SchemaOf(catalog, codes[i]).Ok? && codes[i].statusCode in SchemasOf(catalog, codes).value
      && SchemasOf(catalog, codes).value[codes[i].statusCode] == SchemaOf(catalog, codes[i]).value
    decreases |codes|
  {
    if codes != [] {
      var front := codes[..|codes| - 1];
      var last := codes[|codes| - 1];
      assert DistinctStatuses(front);
      SchemasOfEntries(catalog, front);
      var m := SchemasOf(catalog, codes).value;
      assert m == SchemasOf(catalog, front).value[last.statusCode := SchemaOf(catalog, last).value];
      forall i | 0 <= i < |front|
        ensures && SchemaOf(catalog, codes[i]).Ok? && codes[i].statusCode in m
                && m[codes[i].statusCode] == SchemaOf(catalog, codes[i]).value
      {
        assert front[i] == codes[i];
        assert codes[i].statusCode != last.statusCode;
      }
    }
  }

  /** On failure, the fault names the first status the catalog lacks. */
  lemma {:induction false} SchemasFailAtFirstUncatalogued(catalog: Catalog, codes: seq<Bucket>)
    requires SchemasOf(catalog, codes).Err?
    ensures exists k :: (0 <= k < |codes|
      && SchemasOf(catalog, codes).error == NoCatalogEntry(codes[k].statusCode)
      && catalog(codes[k].statusCode).None?
      && forall i :: 0 <= i < k ==> catalog(codes[i].statusCode).Some?)
    decreases |codes|
  {
    var front := codes[..|codes| - 1];
    assert forall i :: 0 <= i < |front| ==> front[i] == codes[i];
    if SchemasOf(catalog, front).Err? {
      SchemasFailAtFirstUncatalogued(catalog, front);
      var k :| 0 <= k < |front|
        && SchemasOf(catalog, front).error == NoCatalogEntry(front[k].statusCode)
        && catalog(front[k].statusCode).None?
        && forall i :: 0 <= i < k ==> catalog(front[i].statusCode).Some?;
      assert codes[k] == front[k];
    } else {
      SchemasSucceedIffCatalogued(catalog, front);
      assert SchemasOf(catalog, codes).error == NoCatalogEntry(codes[|front|].statusCode);
    }
  }

  /** The schemas `useErrors` returns for arguments that all resolve: it
      succeeds exactly when the catalog has every status of the input; the
      result then has one key per distinct status, and each schema refers
      to `BadRequestError` for 400 and `HttpError` otherwise, documents the
      input's items with that status, and is described by the catalog's
      reason phrase for it. A status missing from the catalog is the fault
      otherwise. */
  lemma UseErrorsOnResolvedArguments(catalog: Catalog, all: map<string, ErrorKind>, refs: seq<ErrorRef>)
    requires Resolve(all, refs).Ok?
    ensures var items := Resolve(all, refs).value;
      UseErrorsSpec(catalog, all, refs).Ok? <==>
        forall s :: s in StatusesOf(items) ==> catalog(s).Some?
    ensures var items := Resolve(all, refs).value;
      UseErrorsSpec(catalog, all, refs).Ok? ==>
        && UseErrorsSpec(catalog, all, refs).value.Keys == StatusesOf(items)
        && forall s :: s in StatusesOf(items) ==>
             UseErrorsSpec(catalog, all, refs).value[s] == SchemaRef(
               RefFor(s), Examples(Filter(items, s)),
               catalog(s).value.message)
    ensures var items := Resolve(all, refs).value;
      UseErrorsSpec(catalog, all, refs).Err? ==>
        exists s :: s in StatusesOf(items) && catalog(s).None?
          && UseErrorsSpec(catalog, all, refs).error == NoCatalogEntry(s)
  {
    var items := Resolve(all, refs).value;
    var g := Group(items);
    GroupHasOneEntryPerStatus(items);
    GroupEntriesAreFilters(items);
    SchemasSucceedIffCatalogued(catalog, g);
    if SchemasOf(catalog, g).Ok? {
      SchemasKeyedByStatus(catalog, g);
      SchemasOfEntries(catalog, g);
    } else {
      SchemasFailAtFirstUncatalogued(catalog, g);
    }
    forall s | s in StatusesOf(items) ensures exists i :: 0 <= i < |g| && g[i].statusCode == s {
      assert s in BucketStatuses(g);
    }
    if UseErrorsSpec(catalog, all, refs).Err? {
      var k :| 0 <= k < |g| && SchemasOf(catalog, g).error == NoCatalogEntry(g[k].statusCode)
        && catalog(g[k].statusCode).None?;
      assert g[k].statusCode in BucketStatuses(g);
    }
  }

  /** `codes` after the first loop, or the fault it throws. */
  function GroupedSpec(all: map<string, ErrorKind>, refs: seq<ErrorRef>): Result<seq<Bucket>, Fault> {
    match Resolve(all, refs)
    case Err(fault) => Err(fault)
    case Ok(items) => Ok(Group(items))
  }

  /** The first loop of `useErrors`: `errors.forEach` resolving each
      argument and pushing it onto the entry of its status code. */
  method CollectCodes(all: map<string, ErrorKind>, refs: seq<ErrorRef>) returns (r: Result<seq<Bucket>, Fault>)
    ensures r == GroupedSpec(all, refs)
  {
    var codes: seq<Bucket> := [];
    var i := 0;
    while i < |refs|
      invariant 0 <= i <= |refs|
      invariant GroupedSpec(all, refs[..i]) == Ok(codes)
    {
      assert refs[..i + 1][..i] == refs[..i];
      var resolved := ItemOf(all, refs[i]);
      if resolved.Err? {
        ResolveStopsAtFirstFault(all, refs[..i + 1], refs);
        return Err(resolved.error);
      }
      var item := resolved.value;
      var k := Find(codes, item.statusCode);
      if k.Some? {
        codes := codes[k.value := Bucket(codes[k.value].statusCode, codes[k.value].items + [item])];
      } else {
        codes := codes + [Bucket(item.statusCode, [item])];
      }
      i := i + 1;
    }
    assert refs[..i] == refs;
    r := Ok(codes);
  }

  /** The second loop of `useErrors`: `codes.forEach` writing one schema per
      status code. */
  method BuildSchemas(catalog: Catalog, codes: seq<Bucket>) returns (r: Result<map<int, SchemaRef>, Fault>)
    ensures r == SchemasOf(catalog, codes)
  {
    var schemas: map<int, SchemaRef> := map[];
    var j := 0;
    while j < |codes|
      invariant 0 <= j <= |codes|
      invariant SchemasOf(catalog, codes[..j]) == Ok(schemas)
    {
      assert codes[..j + 1][..j] == codes[..j];
      var bucket := codes[j];
      var schema := RefFor(bucket.statusCode);
      var entry := catalog(bucket.statusCode);
      if entry.None? {
        SchemasStopAtFirstFault(catalog, codes[..j + 1], codes);
        return Err(NoCatalogEntry(bucket.statusCode));
      }
      schemas := schemas[bucket.statusCode := SchemaRef(schema, Examples(bucket.items), entry.value.message)];
      j := j + 1;
    }
    assert codes[..j] == codes;
    r := Ok(schemas);
  }

  /** `useErrors(errors)`. */
  method UseErrors(all: map<string, ErrorKind>, refs: seq<ErrorRef>) returns (r: Result<map<int, SchemaRef>, Fault>)
    ensures r == UseErrorsSpec(AppErrors.HttpErrorsByStatusCode, all, refs)
  {
    var codes := CollectCodes(all, refs);
    if codes.Err? {
      return Err(codes.error);
    }
    r := BuildSchemas(AppErrors.HttpErrorsByStatusCode, codes.value);
  }
}
