/** Notebook rows as the database records them, the state the API derives from them, and the two
    counting loops that the quota checks rest on. */
module Notebooks {

  datatype Kind = Cpu | Gpu

  /** Every event a row can record, in the order of the constants file. Several of them are written
      only by code that is commented out, but the failure test still looks for them. */
  datatype Event =
    | Scheduled
    | Picked
    | PvcApplied
    | PvcApplyFailed
    | PvcCreated
    | PvcCreationFailed
    | PvcUploadSuccessful
    | PvcUploadApplied
    | PvcUploadApplyFailed
    | PvcUploadFailed
    | NotebookApplied
    | NotebookApplyFailed

  predicate Failed(latest: Event) {
    || latest == PvcUploadFailed
    || latest == PvcUploadApplyFailed
    || latest == NotebookApplyFailed
    || latest == PvcCreationFailed
    || latest == PvcApplyFailed
  }

  /** The five events that stand for a failure. */
  const FAILURES := {PvcApplyFailed, PvcCreationFailed, PvcUploadApplyFailed, PvcUploadFailed, NotebookApplyFailed}

  lemma FailedExactly(e: Event)
    ensures Failed(e) <==> e in FAILURES
  {
  }

  /** The test of the running count: a row that has not failed counts, unless its Kubernetes object
      carries the stop annotation, or it was applied and the object is gone. */
  predicate CountsAsRunning(latest: Event, found: bool, stopped: bool) {
    && !Failed(latest)
    && (if found then !stopped else latest != NotebookApplied)
  }

  /** The test of the total count. */
  predicate CountsAsCreated(latest: Event, found: bool) {
    && !Failed(latest)
    && (found || latest != NotebookApplied)
  }

  /** One entry of the slice the handlers fill from the database. */
  datatype DbNotebook = DbNotebook(name: string, kind: Kind, latest: Event)

  /** One item of a Kubernetes list. */
  datatype Item = Item(name: string, annotations: map<string, string>)

  const STOP_ANNOTATION := "kubeflow-resource-stopped"

  /** No later item has the same name. */
  predicate LastOfName(items: seq<Item>, i: nat)
    requires i < |items|
  {
    forall j :: i < j < |items| ==> items[j].name != items[i].name
  }

  /** What the code learns from a list: which names exist, and whether each is stopped. */
  function Listing(items: seq<Item>): (m: map<string, bool>)
    ensures forall n :: n in m <==> exists i :: 0 <= i < |items| && items[i].name == n
  {
    if items == [] then map[]
    else
      var last := items[|items| - 1];
      var before := Listing(items[..|items| - 1]);
      assert forall n :: n in before <==> exists i :: 0 <= i < |items| - 1 && items[i].name == n;
      before[last.name := STOP_ANNOTATION in last.annotations]
  }

  /** A name is marked stopped as its item says; of two items with one name the later decides. In a
      namespace names do not repeat. */
  lemma {:induction false} ListingTellsStopped(items: seq<Item>, i: nat)
    requires i < |items| && LastOfName(items, i)
    ensures items[i].name in Listing(items)
    ensures Listing(items)[items[i].name] == ("kubeflow-resource-stopped" in items[i].annotations)
    decreases |items|
  {
    if i < |items| - 1 {
      var init := items[..|items| - 1];
      assert items[|items| - 1].name != items[i].name;
      ListingTellsStopped(init, i);
    }
  }

  predicate RunningEntry(nb: DbNotebook, listing: map<string, bool>, kind: Kind) {
    && nb.kind == kind
    && CountsAsRunning(nb.latest, nb.name in listing, nb.name in listing && listing[nb.name])
  }

  predicate CreatedEntry(nb: DbNotebook, listing: map<string, bool>, kind: Kind) {
    nb.kind == kind && CountsAsCreated(nb.latest, nb.name in listing)
  }

  predicate DistinctNames(db: seq<DbNotebook>) {
    forall i, j :: 0 <= i < j < |db| ==> db[i].name != db[j].name
  }

  /** The names of the entries a test keeps. */
  ghost function NamesWhere(db: seq<DbNotebook>, keep: DbNotebook -> bool): (names: set<string>)
    ensures forall n :: n in names <==> exists i :: 0 <= i < |db| && db[i].name == n && keep(db[i])
  {
    if db == [] then {}
    else
      var last := db[|db| - 1];
      var before := NamesWhere(db[..|db| - 1], keep);
      assert forall n :: n in before <==> exists i :: 0 <= i < |db| - 1 && db[i].name == n && keep(db[i]);
      if keep(last) then before + {last.name} else before
  }

  /** The names behind a running count: what the loop below counts without ever building. */
  ghost function RunningNames(db: seq<DbNotebook>, listing: map<string, bool>, kind: Kind): set<string> {
    NamesWhere(db, nb => RunningEntry(nb, listing, kind))
  }

  ghost function CreatedNames(db: seq<DbNotebook>, listing: map<string, bool>, kind: Kind): set<string> {
    NamesWhere(db, nb => CreatedEntry(nb, listing, kind))
  }

  /** One more entry adds one name exactly when it is kept, because names do not repeat. */
  lemma NamesWhereSnoc(db: seq<DbNotebook>, i: nat, keep: DbNotebook -> bool)
    requires i < |db| && DistinctNames(db)
    ensures |NamesWhere(db[..i + 1], keep)| == |NamesWhere(db[..i], keep)| + (if keep(db[i]) then 1 else 0)
  {
    assert db[..i + 1][..i] == db[..i];
    assert db[i].name !in NamesWhere(db[..i], keep);
  }

  /** The map of Kubernetes objects by name that both counts build first. */
  method IndexItems(items: seq<Item>) returns (k8s: map<string, bool>)
    ensures k8s == Listing(items)
    ensures forall i :: 0 <= i < |items| && LastOfName(items, i) ==>
              items[i].name in k8s && k8s[items[i].name] == ("kubeflow-resource-stopped" in items[i].annotations)
  {
    k8s := map[];
    for i := 0 to |items|
      invariant k8s == Listing(items[..i])
    {
      assert items[..i + 1][..i] == items[..i];
      k8s := k8s[items[i].name := STOP_ANNOTATION in items[i].annotations];
    }
    assert items[..|items|] == items;
    forall i | 0 <= i < |items| && LastOfName(items, i)
      ensures items[i].name in k8s && k8s[items[i].name] == ("kubeflow-resource-stopped" in items[i].annotations)
    {
      ListingTellsStopped(items, i);
    }
  }

  /** Names are unique inside a namespace (a table constraint), so the slice has no repeats. */
  method CountEffectiveRunning(db: seq<DbNotebook>, items: seq<Item>) returns (runningCpu: nat, runningGpu: nat)
    requires DistinctNames(db)
    ensures runningCpu == |RunningNames(db, Listing(items), Cpu)|
    ensures runningGpu == |RunningNames(db, Listing(items), Gpu)|
  {
    var k8s := IndexItems(items);
    runningCpu, runningGpu := 0, 0;
    for i := 0 to |db|
      invariant runningCpu == |RunningNames(db[..i], k8s, Cpu)|
      invariant runningGpu == |RunningNames(db[..i], k8s, Gpu)|
    {
      var nb := db[i];
      NamesWhereSnoc(db, i, e => RunningEntry(e, k8s, Cpu));
      NamesWhereSnoc(db, i, e => RunningEntry(e, k8s, Gpu));
      if Failed(nb.latest) {
        continue;
      }
      var exists_ := nb.name in k8s;
      var isRunning := false;
      if nb.latest == NotebookApplied && !exists_ {
        continue;
      }
      if exists_ {
        isRunning := !k8s[nb.name];
      } else {
        isRunning := true;
      }
      if isRunning {
        if nb.kind == Cpu {
          runningCpu := runningCpu + 1;
        } else {
          runningGpu := runningGpu + 1;
        }
      }
    }
    assert db[..|db|] == db;
  }

  method CountSuccessfullyCreated(db: seq<DbNotebook>, items: seq<Item>) returns (totalCpu: nat, totalGpu: nat)
    requires DistinctNames(db)
    ensures totalCpu == |CreatedNames(db, Listing(items), Cpu)|
    ensures totalGpu == |CreatedNames(db, Listing(items), Gpu)|
  {
    var k8s := IndexItems(items);
    totalCpu, totalGpu := 0, 0;
    for i := 0 to |db|
      invariant totalCpu == |CreatedNames(db[..i], k8s, Cpu)|
      invariant totalGpu == |CreatedNames(db[..i], k8s, Gpu)|
    {
      var nb := db[i];
      NamesWhereSnoc(db, i, e => CreatedEntry(e, k8s, Cpu));
      NamesWhereSnoc(db, i, e => CreatedEntry(e, k8s, Gpu));
      if Failed(nb.latest) {
        continue;
      }
      var exists_ := nb.name in k8s;
      if !exists_ && nb.latest == NotebookApplied {
        continue;
      }
      if nb.kind == Cpu {
        totalCpu := totalCpu + 1;
      } else {
        totalGpu := totalGpu + 1;
      }
    }
    assert db[..|db|] == db;
  }
}
