/** The run as a whole: the template is validated and the tools are found
    first, then the items are discovered and converted, and the outcomes
    are sorted into the output paths kept and the errors reported. Two
    items whose outputs resolve to the same path collide: only the last
    of them is kept, and each earlier one is reported. */
module Entry {
  import opened Wrappers
  import opened Formats
  import Args
  import opened Externals
  import opened Convert
  import Pics
  import ConcurrentMap
  import Files

  /** The outcome of one item: its output path, or its error message. */
  datatype ItemResult = Filename(path: string) | Error(msg: string)

  function ToResult(r: Result<string>): (res: ItemResult)
    ensures r.Ok? <==> res.Filename?
    ensures r.Ok? ==> res.path == r.value
    ensures r.Err? ==> res.msg == r.error
  {
    match r
    case Ok(path) => Filename(path)
    case Err(e) => Error(e)
  }

  /** The conversion of every item with one shared picture cache; each
      item's outcome is the one it would have on its own against the same
      world, which does not see the outputs the run itself writes. */
  method Run(items: seq<Item>, app: Args.AppArgs, format: Format, world: World) returns (results: seq<ItemResult>)
    ensures |results| == |items|
    ensures forall i :: 0 <= i < |items| ==> results[i] == ToResult(ConvOutcome(items[i], app, format, world))
  {
    var pics := new ConcurrentMap.ConcurrentMap<string, Option<Bytes>>();
    results := ConvertAll(items, pics, app, format, world);
  }

  /** The outcomes of the first n items, each the outcome f gives it on
      its own. */
  ghost function OutcomesUpTo(items: seq<Item>, n: nat, f: Item -> ItemResult): seq<ItemResult>
    requires n <= |items|
  {
    if n == 0 then [] else OutcomesUpTo(items, n - 1, f) + [f(items[n - 1])]
  }

  lemma {:induction false} OutcomesAt(items: seq<Item>, n: nat, f: Item -> ItemResult)
    requires n <= |items|
    ensures |OutcomesUpTo(items, n, f)| == n
    ensures forall i :: 0 <= i < n ==> OutcomesUpTo(items, n, f)[i] == f(items[i])
  {
    if n > 0 {
      OutcomesAt(items, n - 1, f);
    }
  }

  /** The cover files the first n items look up in the picture cache. */
  ghost function PicKeys(items: seq<Item>, n: nat, app: Args.AppArgs, world: World): set<string>
    requires n <= |items|
  {
    if n == 0 then {} else PicKeys(items, n - 1, app, world) + Pics.KeySet(ItemPicKey(items[n - 1], app, world))
  }

  /** One item converted through the cache, which grows by at most the
      cover file the item looks up. */
  method ConvStep(item: Item, pics: Pics.PicsMap, app: Args.AppArgs, format: Format, world: World)
    returns (result: ItemResult)
    requires pics.Valid() && Pics.Coherent(pics.table.entries, app, format, world)
    modifies pics.table
    ensures pics.Valid() && Pics.Coherent(pics.table.entries, app, format, world)
    ensures result == ToResult(ConvOutcome(item, app, format, world))
    ensures Pics.Grown(old(pics.table.entries), old(pics.table.computations),
                       pics.table.entries, pics.table.computations, Pics.KeySet(ItemPicKey(item, app, world)))
  {
    ghost var (entries, counts) := (pics.table.entries, pics.table.computations);
    var outcome := ConvItem(item, pics, app, format, world);
    Pics.CacheStepGrown(entries, counts, pics.table.entries, pics.table.computations,
                        ItemPicKey(item, app, world), app, format, world);
    result := ToResult(outcome);
  }

  /** The items converted in order through one cache. The cache ends up
      holding, besides what it held, exactly the cover files the items
      looked up, each converted once; nothing held before is dropped,
      replaced or converted again. */
  method ConvertAll(items: seq<Item>, pics: Pics.PicsMap, app: Args.AppArgs, format: Format, world: World)
    returns (results: seq<ItemResult>)
    requires pics.Valid() && Pics.Coherent(pics.table.entries, app, format, world)
    modifies pics.table
    ensures |results| == |items|
    ensures forall i :: 0 <= i < |items| ==> results[i] == ToResult(ConvOutcome(items[i], app, format, world))
    ensures pics.Valid() && Pics.Coherent(pics.table.entries, app, format, world)
    ensures Pics.Grown(old(pics.table.entries), old(pics.table.computations),
                       pics.table.entries, pics.table.computations, PicKeys(items, |items|, app, world))
  {
    ghost var f := (item: Item) => ToResult(ConvOutcome(item, app, format, world));
    results := [];
    for i := 0 to |items|
      invariant pics.Valid() && Pics.Coherent(pics.table.entries, app, format, world)
      invariant results == OutcomesUpTo(items, i, f)
      invariant Pics.Grown(old(pics.table.entries), old(pics.table.computations),
                           pics.table.entries, pics.table.computations, PicKeys(items, i, app, world))
    {
      ghost var (entries, counts) := (pics.table.entries, pics.table.computations);
      var result := ConvStep(items[i], pics, app, format, world);
      Pics.GrownTrans(old(pics.table.entries), old(pics.table.computations), entries, counts,
                      pics.table.entries, pics.table.computations,
                      PicKeys(items, i, app, world), Pics.KeySet(ItemPicKey(items[i], app, world)));
      results := results + [result];
    }
    OutcomesAt(items, |items|, f);
  }

  // ---------------------------------------------------------------------
  // Collisions and the summary, as a specification

  /** The first position from b on whose outcome is the same path. */
  function FirstSameFrom(results: seq<ItemResult>, path: string, b: nat): (r: Option<nat>)
    requires b <= |results|
    ensures r.Some? ==> b <= r.value < |results| && results[r.value] == Filename(path)
    ensures r.Some? ==> forall k :: b <= k < r.value ==> results[k] != Filename(path)
    ensures r.None? ==> forall k :: b <= k < |results| ==> results[k] != Filename(path)
    decreases |results| - b
  {
    if b == |results| then None
    else if results[b] == Filename(path) then Some(b)
    else FirstSameFrom(results, path, b + 1)
  }

  /** An outcome is kept when it is a path and no later outcome is the
      same path. */
  predicate Keeps(results: seq<ItemResult>, a: nat)
    requires a < |results|
  {
    results[a].Filename? && FirstSameFrom(results, results[a].path, a + 1).None?
  }

  /** Only the last of the items with one path is kept. */
  lemma KeepsLast(results: seq<ItemResult>, a: nat)
    requires a < |results|
    ensures Keeps(results, a) <==> results[a].Filename? && forall b :: a < b < |results| ==> results[b] != results[a]
  {
    if results[a].Filename? && !Keeps(results, a) {
      var b := FirstSameFrom(results, results[a].path, a + 1).value;
      assert results[b] == results[a];
    }
  }

  /** The report for an outcome that is not kept: a collision names the
      item, the path and the first later item with that path; a failure
      names the item and its error. */
  function ErrorMessage(items: seq<Item>, results: seq<ItemResult>, a: nat): (msg: string)
    requires |items| == |results| && a < |results| && !Keeps(results, a)
    ensures results[a].Error? ==> msg == items[a].filename + ": " + results[a].msg
    ensures results[a].Filename? ==>
      var b := FirstSameFrom(results, results[a].path, a + 1).value;
      msg == items[a].filename + ": resolves to " + results[a].path + " just as " + items[b].filename
  {
    match results[a]
    case Error(e) => items[a].filename + ": " + e
    case Filename(p) =>
      var b := FirstSameFrom(results, p, a + 1).value;
      items[a].filename + ": resolves to " + p + " just as " + items[b].filename
  }

  /** The kept paths among the first n outcomes, in item order. */
  function ValidUpTo(results: seq<ItemResult>, n: nat): seq<string>
    requires n <= |results|
  {
    if n == 0 then []
    else ValidUpTo(results, n - 1) + (if Keeps(results, n - 1) then [results[n - 1].path] else [])
  }

  /** The reports of the first n outcomes, in item order. */
  function ErrorsUpTo(items: seq<Item>, results: seq<ItemResult>, n: nat): seq<string>
    requires |items| == |results| && n <= |results|
  {
    if n == 0 then []
    else ErrorsUpTo(items, results, n - 1) + (if Keeps(results, n - 1) then [] else [ErrorMessage(items, results, n - 1)])
  }

  /** Every outcome is either kept or reported, never both. */
  lemma {:induction false} EveryOutcomeCounted(items: seq<Item>, results: seq<ItemResult>, n: nat)
    requires |items| == |results| && n <= |results|
    ensures |ValidUpTo(results, n)| + |ErrorsUpTo(items, results, n)| == n
  {
    if n > 0 {
      EveryOutcomeCounted(items, results, n - 1);
    }
  }

  /** A path is kept exactly when some item's outcome is that path and no
      later item has it. */
  lemma {:induction false} ValidMembers(results: seq<ItemResult>, n: nat)
    requires n <= |results|
    ensures forall p :: p in ValidUpTo(results, n) <==>
      exists a :: 0 <= a < n && results[a] == Filename(p) && Keeps(results, a)
  {
    if n > 0 {
      ValidMembers(results, n - 1);
    }
  }

  predicate Distinct(s: seq<string>) {
    forall i, j :: 0 <= i < j < |s| ==> s[i] != s[j]
  }

  /** The kept paths are pairwise distinct. */
  lemma {:induction false} ValidDistinct(results: seq<ItemResult>, n: nat)
    requires n <= |results|
    ensures Distinct(ValidUpTo(results, n))
  {
    if n > 0 {
      ValidDistinct(results, n - 1);
      if Keeps(results, n - 1) {
        var p := results[n - 1].path;
        var u := ValidUpTo(results, n - 1);
        ValidMembers(results, n - 1);
        assert p !in u;
        var v := ValidUpTo(results, n);
        assert v == u + [p];
        forall i, j | 0 <= i < j < |v|
          ensures v[i] != v[j]
        {
          assert v[i] == u[i];
          if j == |u| {
            assert u[i] in u;
          } else {
            assert v[j] == u[j];
          }
        }
      }
    }
  }

  /** No successful path is lost: every path some item resolved to is
      kept, through the last item that resolved to it. */
  lemma {:induction false} SuccessKept(results: seq<ItemResult>, a: nat)
    requires a < |results| && results[a].Filename?
    ensures results[a].path in ValidUpTo(results, |results|)
    decreases |results| - a
  {
    var p := results[a].path;
    ValidMembers(results, |results|);
    match FirstSameFrom(results, p, a + 1)
    case None =>
      assert Keeps(results, a);
    case Some(b) =>
      SuccessKept(results, b);
  }

  /** No report is made exactly when every outcome is kept. */
  lemma {:induction false} NoErrorsUpTo(items: seq<Item>, results: seq<ItemResult>, n: nat)
    requires |items| == |results| && n <= |results|
    ensures ErrorsUpTo(items, results, n) == [] <==> forall a :: 0 <= a < n ==> Keeps(results, a)
  {
    if n > 0 {
      NoErrorsUpTo(items, results, n - 1);
    }
  }

  /** No report is made exactly when every item resolved to a path and no
      two items resolved to the same one. */
  lemma NoErrors(items: seq<Item>, results: seq<ItemResult>)
    requires |items| == |results|
    ensures ErrorsUpTo(items, results, |results|) == [] <==>
      && (forall a :: 0 <= a < |results| ==> results[a].Filename?)
      && (forall a, b :: 0 <= a < b < |results| ==> results[a] != results[b])
  {
    NoErrorsUpTo(items, results, |results|);
    forall a | 0 <= a < |results|
      ensures Keeps(results, a) <==> results[a].Filename? && forall b :: a < b < |results| ==> results[b] != results[a]
    {
      KeepsLast(results, a);
    }
  }

  /** With each outcome that of its item, no report is made exactly when
      every item succeeded and no two items succeeded with the same path. */
  lemma RunVerdict(items: seq<Item>, results: seq<ItemResult>, outcome: Item -> Result<string>)
    requires |items| == |results|
    requires forall i :: 0 <= i < |items| ==> results[i] == ToResult(outcome(items[i]))
    ensures ErrorsUpTo(items, results, |results|) == [] <==>
      && (forall a :: 0 <= a < |items| ==> outcome(items[a]).Ok?)
      && (forall a, b :: 0 <= a < b < |items| ==> outcome(items[a]) != outcome(items[b]))
  {
    NoErrors(items, results);
    OutcomesAgree(items, results, outcome);
  }

  /** Results that are their items' outcomes are paths exactly where the
      outcomes succeed, and equal exactly where the outcomes are. */
  lemma OutcomesAgree(items: seq<Item>, results: seq<ItemResult>, outcome: Item -> Result<string>)
    requires |items| == |results|
    requires forall i :: 0 <= i < |items| ==> results[i] == ToResult(outcome(items[i]))
    ensures (forall a :: 0 <= a < |results| ==> results[a].Filename?) <==>
            (forall a :: 0 <= a < |items| ==> outcome(items[a]).Ok?)
    ensures (forall a, b :: 0 <= a < b < |results| ==> results[a] != results[b]) <==>
            (forall a, b :: 0 <= a < b < |items| ==> outcome(items[a]) != outcome(items[b]))
  {
    forall a, b | 0 <= a < b < |items|
      ensures results[a] != results[b] <==> outcome(items[a]) != outcome(items[b])
    {
      assert results[a] == ToResult(outcome(items[a])) && results[b] == ToResult(outcome(items[b]));
    }
  }

  // ---------------------------------------------------------------------
  // Collisions and the summary, step by step

  /** The loop over the outcomes: a path is kept unless a later item has
      the same one, in which case the first such item is named in a
      report; a failure is reported with its item. */
  method Aggregate(items: seq<Item>, results: seq<ItemResult>) returns (valid: seq<string>, errs: seq<string>)
    requires |items| == |results|
    ensures valid == ValidUpTo(results, |results|)
    ensures errs == ErrorsUpTo(items, results, |results|)
  {
    valid := [];
    errs := [];
    var n := |results|;
    for a := 0 to n
      invariant valid == ValidUpTo(results, a)
      invariant errs == ErrorsUpTo(items, results, a)
    {
      match results[a] {
        case Filename(filename) =>
          var duplicate := false;
          for b := a + 1 to n
            invariant !duplicate
            invariant FirstSameFrom(results, filename, a + 1) == FirstSameFrom(results, filename, b)
          {
            if results[b].Filename? && results[b].path == filename {
              duplicate := true;
              errs := errs + [items[a].filename + ": resolves to " + filename + " just as " + items[b].filename];
              break;
            }
          }
          if !duplicate {
            valid := valid + [filename];
          }
        case Error(e) =>
          errs := errs + [items[a].filename + ": " + e];
      }
    }
  }

  /** The whole run: the template check, the tool lookup, discovery, the
      conversions and the summary, each failure ending the run where it
      happens. After discovery, the items are the sorted and numbered
      collected files, each outcome is that item's conversion, the kept
      paths and the reports are those of the summary, and the run fails
      exactly when some item failed or two items resolved to one path. */
  method Execute(app: Args.AppArgs, format: Format, world: World, tools: Result<()>, le: (string, string) -> bool)
    returns (r: Result<()>, valid: seq<string>, errs: seq<string>, ghost items: seq<Item>, ghost results: seq<ItemResult>)
    requires Files.TotalPreorder(le)
    ensures ValidateTemplate(app.filenameTemplate, world.render).Err? ==>
      r == Err(ValidateTemplate(app.filenameTemplate, world.render).error) && valid == [] && errs == []
    ensures ValidateTemplate(app.filenameTemplate, world.render).Ok? && tools.Err? ==>
      r == Err(tools.error) && valid == [] && errs == []
    ensures (ValidateTemplate(app.filenameTemplate, world.render).Ok? && tools.Ok?
      && Files.Collect(app.inputDirs, app.inputExts, world).Err?) ==>
      r == Err(Files.Collect(app.inputDirs, app.inputExts, world).error) && valid == [] && errs == []
    ensures (ValidateTemplate(app.filenameTemplate, world.render).Ok? && tools.Ok?
      && Files.Collect(app.inputDirs, app.inputExts, world).Ok?) ==>
      && |items| == |Files.Collect(app.inputDirs, app.inputExts, world).value|
      && multiset(Files.Unnumbered(items)) == multiset(Files.Collect(app.inputDirs, app.inputExts, world).value)
      && Files.Sorted(items, le)
      && (forall i :: 0 <= i < |items| ==> items[i].index == i && items[i].total == |items|)
      && |results| == |items|
      && (forall i :: 0 <= i < |items| ==> results[i] == ToResult(ConvOutcome(items[i], app, format, world)))
      && valid == ValidUpTo(results, |results|)
      && errs == ErrorsUpTo(items, results, |results|)
      && |valid| + |errs| == |items|
      && (r.Ok? <==> errs == [])
      && (r.Ok? <==>
            && (forall a :: 0 <= a < |items| ==> ConvOutcome(items[a], app, format, world).Ok?)
            && (forall a, b :: 0 <= a < b < |items| ==>
                  ConvOutcome(items[a], app, format, world) != ConvOutcome(items[b], app, format, world)))
      && (r.Err? ==> r.error == "Some errors occurred")
  {
    items, results := [], [];
    valid := [];
    errs := [];
    var checked := ValidateTemplate(app.filenameTemplate, world.render);
    if checked.Err? {
      return Err(checked.error), valid, errs, items, results;
    }
    if tools.Err? {
      return Err(tools.error), valid, errs, items, results;
    }
    var found := Files.FindFiles(app.inputDirs, app.inputExts, world, le);
    if found.Err? {
      return Err(found.error), valid, errs, items, results;
    }
    var outcomes := Run(found.value, app, format, world);
    items, results := found.value, outcomes;
    valid, errs := Aggregate(found.value, outcomes);
    EveryOutcomeCounted(items, results, |results|);
    RunVerdict(items, results, item => ConvOutcome(item, app, format, world));
    if errs == [] {
      return Ok(()), valid, errs, items, results;
    }
    return Err("Some errors occurred"), valid, errs, items, results;
  }
}
