/** What one call of Start or Stop achieves when nobody interleaves with it. */
module CallContracts {
  import opened Domain
  import opened Lifecycle
  import opened Solo
  import S = ApiServer
  import C = StopChannels
  import F = Finalizers

  /**
   The map has the same entries, and every channel is where it was. Sets no longer in the map may have been added, and a
   channel that came with an error.
   */
  ghost predicate SameMap(r: Registry, r': Registry) {
    && r'.controllers == r.controllers
    && |r.sets| <= |r'.sets| && (forall i: SetId :: i < |r.sets| ==> r'.sets[i] == r.sets[i])
    && r.owner <= r'.owner && r'.closed == r.closed
    && (forall c: Chan :: c < |r'.owner| ==> (c in r'.dropped <==> c in r.dropped || |r.owner| <= c))
  }

  /** What a starter that does not return a channel, or returns one with an error, has done. */
  function Refused(r: Registry, k: Key, result: StartResult): Registry {
    if result.ChannelAndError? then Abandoned(r, k) else r
  }

  predicate Fails(result: StartResult) {
    result.NilChannel? || result.StartError? || result.ChannelAndError?
  }

  lemma OnlyAtTransitive(a: S.Server, b: S.Server, c: S.Server, k: Key)
    requires F.OnlyAt(a, b, k) && F.OnlyAt(b, c, k)
    ensures F.OnlyAt(a, c, k)
  {
  }

  /** Rolling back removes the finalizer if every call gets through, and otherwise leaves the server's object alone. */
  lemma RollbackContract(own: string, t: World, k: Key, o: ObjId, calls: Calls)
    requires S.Valid(t.server)
    ensures var (p, t') := Complete(own, t, k, RollbackGet(o), calls);
            && p == Finish(Some(o), false) && t'.reg == t.reg && t'.inf == t.inf
            && F.OnlyAt(t.server, t'.server, k)
            && (t'.server == t.server || F.Removes(t.server, t'.server, k, own))
            && (calls.fetch == S.Answered && calls.release == S.Answered ==> !S.Carries(t'.server, k, own))
  {
    var c := ChoiceAt(calls, RollbackGet(o));
    var p1 := RollbackGetStage(own, t, k, o, calls.fetch);
    Advance(own, t, k, RollbackGet(o), calls, p1, t);
    if k in t.server.objects {
      WithoutShrinksIffPresent(t.server.objects[k].finalizers, own);
      if p1.RollbackWrite? {
        var released := Released(p1.latest, own);
        Advance(own, t, k, p1, calls, Finish(Some(o), false),
            t.(server := S.Update(t.server, released, calls.release).0));
        F.UpdateKeepsValid(t.server, released, calls.release);
      }
    }
  }

  /** Undoing a start drops the entry this start made. */
  lemma UndoContract(own: string, t: World, k: Key, p: Stage, calls: Calls)
    requires S.Valid(t.server) && p.StartUndo?
    ensures var (p', t') := Complete(own, t, k, p, calls);
            && p' == Finish(Some(p.obj), false) && F.OnlyAt(t.server, t'.server, k)
            && t'.reg == (if p.existed then t.reg else Deleted(t.reg, k)) && t'.inf == t.inf
            && (t'.server == t.server || (p.rollback && F.Removes(t.server, t'.server, k, own)))
            && (p.rollback && calls.fetch == S.Answered && calls.release == S.Answered ==>
                 !S.Carries(t'.server, k, own))
  {
    var (p1, t1) := StartUndoStep(t, k, p);
    Advance(own, t, k, p, calls, p1, t1);
    if p.rollback {
      RollbackContract(own, t1, k, p.obj, calls);
    }
  }

  /**
   From the starter call on: a channel is stored, a panic leaves the entry behind, and any other failure is undone.
   */
  lemma StarterContract(own: string, t: World, k: Key, p: Stage, calls: Calls)
    requires S.Valid(t.server) && p.StartCall? && p.cs < |t.reg.sets|
    ensures var (p', t') := Complete(own, t, k, p, calls);
            && p' == Finish(Some(p.obj), calls.start.Channel?) && t'.inf == t.inf && F.OnlyAt(t.server, t'.server, k)
            && (calls.start.Channel? ==> t' == t.(reg := Stored(Opened(t.reg, k), p.cs, |t.reg.owner|)))
            && (calls.start.Panic? ==> t' == t.(reg := t.reg.(panicked := t.reg.panicked + {k})))
            && (Fails(calls.start) ==>
                  && t'.reg == (if p.existed then Refused(t.reg, k, calls.start)
                       else Deleted(Refused(t.reg, k, calls.start), k))
                  && (t'.server == t.server || (!p.had && F.Removes(t.server, t'.server, k, own)))
                  && (!p.had && calls.fetch == S.Answered && calls.release == S.Answered ==>
                       !S.Carries(t'.server, k, own)))
  {
    var (p1, t1) := StartCallStep(t, k, p, calls.start);
    Advance(own, t, k, p, calls, p1, t1);
    if p1.StartStore? {
      Advance(own, t1, k, p1, calls, Finish(Some(p.obj), true), t1.(reg := Stored(t1.reg, p.cs, |t.reg.owner|)));
    } else if p1.StartUndo? {
      UndoContract(own, t1, k, p1, calls);
    }
  }

  /** The server will list the finalizer, as far as this call can tell. */
  predicate Ensured(own: string, t: World, o: ObjId, calls: Calls)
    requires o < |t.inf.heap|
  {
    own in t.inf.heap[o].pc.finalizers || S.Update(t.server, Marked(t.inf, o, own).heap[o].pc, calls.update).1
  }

  /**
   The server's object has the version of the snapshot, and the update that adds the finalizer has been applied to it.
   */
  lemma EnsureContract(own: string, t: World, k: Key, p: Stage, calls: Calls) returns (t': World)
    requires S.Valid(t.server) && p.StartEnsure? && p.obj < |t.inf.heap| && t.inf.heap[p.obj].pc.name == k
    ensures S.Valid(t'.server) && F.OnlyAt(t.server, t'.server, k) && t'.reg == t.reg && |t'.inf.heap| == |t.inf.heap|
    ensures var had := own in t.inf.heap[p.obj].pc.finalizers;
            && (had ==> t' == t)
            && (!had && Ensured(own, t, p.obj, calls) ==> S.Carries(t'.server, k, own))
            && Complete(own, t, k, p, calls) ==
               Complete(own, t', k,
                        if Ensured(own, t, p.obj, calls) then
                            StartCall(p.obj, p.cs, p.existed, had, had && !S.Carries(t.server, k, own))
                        else StartUndo(p.obj, p.cs, p.existed, false), calls)
  {
    var (p1, t1) := StartEnsureStep(own, t, k, p);
    Advance(own, t, k, p, calls, p1, t1);
    t' := t1;
    if p1.StartWrite? {
      var (p2, t2) := StartWriteStep(t1, p1, calls.update);
      Advance(own, t1, k, p1, calls, p2, t2);
      F.UpdateKeepsValid(t1.server, t1.inf.heap[p.obj].pc, calls.update);
      t' := t2;
    }
  }

  /** The finalizer comes first: from the guard on, a start that could not ensure it never calls the starter. */
  lemma GuardContract(own: string, t: World, k: Key, p: Stage, calls: Calls)
    requires S.Valid(t.server) && p.StartEnsure? && p.obj < |t.inf.heap| && t.inf.heap[p.obj].pc.name == k &&
      p.cs < |t.reg.sets|
    ensures var (p', t') := Complete(own, t, k, p, calls);
            var ensured, had := Ensured(own, t, p.obj, calls), own in t.inf.heap[p.obj].pc.finalizers;
            && p'.Finish? && (p'.ok <==> ensured && calls.start.Channel?) && F.OnlyAt(t.server, t'.server, k)
            && (p'.ok ==> t'.reg == Stored(Opened(t.reg, k), p.cs, |t.reg.owner|))
            && (!p'.ok && !(ensured && calls.start.Panic?) ==>
                  var r := if ensured then Refused(t.reg, k, calls.start) else t.reg;
                  t'.reg == Undone(r, k, p.existed))
            && (p'.ok ==> (S.Carries(t'.server, k, own) <==> !had || S.Carries(t.server, k, own)))
  {
    var t2 := EnsureContract(own, t, k, p, calls);
    var had := own in t.inf.heap[p.obj].pc.finalizers;
    if Ensured(own, t, p.obj, calls) {
      StarterContract(own, t2, k, StartCall(p.obj, p.cs, p.existed, had, had && !S.Carries(t.server, k, own)), calls);
    } else {
      UndoContract(own, t2, k, StartUndo(p.obj, p.cs, p.existed, false), calls);
    }
    OnlyAtTransitive(t.server, t2.server, Complete(own, t, k, p, calls).1.server, k);
  }

  /** What is left of a start that made or found an entry and was then undone. */
  function Undone(r: Registry, k: Key, existed: bool): Registry {
    if existed then r else Deleted(r, k)
  }

  lemma UndoneIsSame(t: World, k: Key, o: ObjId, result: StartResult, called: bool)
    requires o < |t.inf.heap| && StartEntryStep(t, k, o).0.StartCheck?
    ensures var (p, t') := StartEntryStep(t, k, o);
            SameMap(t.reg, Undone(if called then Refused(t'.reg, k, result) else t'.reg, k, p.existed))
  {
    var (p, t') := StartEntryStep(t, k, o);
    assert k !in t.reg.controllers ==> Created(t.reg, k).controllers - {k} == t.reg.controllers;
  }

  lemma StoredRuns(t: World, k: Key, o: ObjId)
    requires C.Owned(t.reg) && o < |t.inf.heap| && StartEntryStep(t, k, o).0.StartCheck?
    ensures var (p, t') := StartEntryStep(t, k, o);
            p.cs < |t'.reg.sets| && Runs(Stored(Opened(t'.reg, k), p.cs, |t'.reg.owner|), k)
  {
  }

  /** A start that finds no channel, from the entry on. */
  lemma FreshStart(own: string, t: World, k: Key, o: ObjId, calls: Calls)
    requires S.Valid(t.server) && C.Owned(t.reg) && o < |t.inf.heap| && !Runs(t.reg, k)
    requires t.inf.heap[o].pc.name == k && t.inf.heap[o].pc.gvk == PROVIDER_CONFIG_GVK && !t.inf.heap[o].pc.terminating
    ensures var (p, t') := Complete(own, t, k, StartEntry(o), calls);
            var ensured := Ensured(own, t, o, calls);
            && p.Finish? && (p.ok <==> ensured && calls.start.Channel?) && F.OnlyAt(t.server, t'.server, k)
            && (p.ok ==> Runs(t'.reg, k))
            && (!p.ok && !(ensured && calls.start.Panic?) ==> SameMap(t.reg, t'.reg))
            && (p.ok ==> (S.Carries(t'.server, k, own) <==>
                  own !in t.inf.heap[o].pc.finalizers || S.Carries(t.server, k, own)))
  {
    var (p1, t1) := StartEntryStep(t, k, o);
    Advance(own, t, k, StartEntry(o), calls, p1, t1);
    StoredRuns(t, k, o);
    UndoneIsSame(t, k, o, calls.start, Ensured(own, t, o, calls));
    var p2 := StartEnsure(o, p1.cs, p1.existed);
    Advance(own, t1, k, p1, calls, p2, t1);
    GuardContract(own, t1, k, p2, calls);
  }

  /**
   Start on a live ProviderConfig. A running key is left alone. Otherwise the call succeeds exactly if the finalizer
   was ensured and the starter returned a channel, and then the key runs; if it fails without a panic, the map and
   every channel are as before. No other object on the server changes. After a successful start the server's object
   lists the finalizer if and only if the snapshot did not list it already or the server's object did.
   */
  lemma StartContract(own: string, t: World, k: Key, o: ObjId, calls: Calls)
    requires S.Valid(t.server) && C.Owned(t.reg) && o < |t.inf.heap|
    requires t.inf.heap[o].pc.name == k && t.inf.heap[o].pc.gvk == PROVIDER_CONFIG_GVK && !t.inf.heap[o].pc.terminating
    ensures var (p, t') := Complete(own, t, k, StartEntry(o), calls);
            && p.Finish? && F.OnlyAt(t.server, t'.server, k)
            && (Runs(t.reg, k) ==> p.ok && t' == t)
            && (!Runs(t.reg, k) ==> (p.ok <==> Ensured(own, t, o, calls) && calls.start.Channel?))
            && (p.ok ==> Runs(t'.reg, k))
            && (!p.ok && !(Ensured(own, t, o, calls) && calls.start.Panic?) ==> SameMap(t.reg, t'.reg))
            && (p.ok && !Runs(t.reg, k) ==>
                  (S.Carries(t'.server, k, own) <==>
                      own !in t.inf.heap[o].pc.finalizers || S.Carries(t.server, k, own)))
  {
    if Runs(t.reg, k) {
      var p1 := StartCheck(o, t.reg.controllers[k], true);
      Advance(own, t, k, StartEntry(o), calls, p1, t);
      Advance(own, t, k, p1, calls, Finish(Some(o), true), t);
    } else {
      FreshStart(own, t, k, o, calls);
    }
  }

  /**
   A failed start takes its finalizer back if the calls for that get through, and never touches one it did not write.
   */
  lemma StartFailureRollsBack(own: string, t: World, k: Key, o: ObjId, calls: Calls)
    requires S.Valid(t.server) && C.Owned(t.reg) && o < |t.inf.heap| && !Runs(t.reg, k)
    requires t.inf.heap[o].pc.name == k && t.inf.heap[o].pc.gvk == PROVIDER_CONFIG_GVK && !t.inf.heap[o].pc.terminating
    requires Fails(calls.start)
    ensures var t' := Complete(own, t, k, StartEntry(o), calls).1;
            && (own in t.inf.heap[o].pc.finalizers ==> t'.server == t.server)
            && ((own !in t.inf.heap[o].pc.finalizers && Ensured(own, t, o, calls) &&
                 calls.fetch == S.Answered && calls.release == S.Answered) ==> !S.Carries(t'.server, k, own))
  {
    var (p1, t1) := StartEntryStep(t, k, o);
    Advance(own, t, k, StartEntry(o), calls, p1, t1);
    var p2 := StartEnsure(o, p1.cs, p1.existed);
    Advance(own, t1, k, p1, calls, p2, t1);
    var t2 := EnsureContract(own, t1, k, p2, calls);
    var had := own in t.inf.heap[o].pc.finalizers;
    if Ensured(own, t, o, calls) {
      StarterContract(own, t2, k, StartCall(o, p1.cs, p1.existed, had, had && !S.Carries(t.server, k, own)), calls);
    }
  }

  /** Neither call does anything to an object of another kind but fail. */
  lemma ForeignKindFails(own: string, t: World, k: Key, o: ObjId, calls: Calls)
    requires o < |t.inf.heap|
    requires t.inf.heap[o].pc.gvk != GroupVersionKind("cloud.gke.io", "v1", "ProviderConfig")
    ensures Complete(own, t, k, StartEntry(o), calls) == (Finish(Some(o), false), t)
    ensures Complete(own, t, k, StopEntry(o), calls) == (Finish(Some(o), false), t)
  {
    Advance(own, t, k, StartEntry(o), calls, Finish(Some(o), false), t);
    Advance(own, t, k, StopEntry(o), calls, Finish(Some(o), false), t);
  }

  /** A terminating object is not started: the call succeeds and does nothing. */
  lemma TerminatingIsSkipped(own: string, t: World, k: Key, o: ObjId, calls: Calls)
    requires o < |t.inf.heap| && t.inf.heap[o].pc.gvk == PROVIDER_CONFIG_GVK && t.inf.heap[o].pc.terminating
    ensures Complete(own, t, k, StartEntry(o), calls) == (Finish(Some(o), true), t)
  {
    Advance(own, t, k, StartEntry(o), calls, Finish(Some(o), true), t);
  }

  /** The finalizer removal of Stop got through, or there was nothing to remove. */
  predicate Removed(own: string, server: S.Server, k: Key, calls: Calls) {
    && calls.fetch == S.Answered
    && (k in server.objects && Lists(server.objects[k], own) ==>
          S.Update(server, Released(server.objects[k], own), calls.release).1)
  }

  lemma RemovalContract(own: string, t: World, k: Key, o: ObjId, calls: Calls)
    requires S.Valid(t.server)
    ensures var (p, t') := Complete(own, t, k, StopGet(o), calls);
            && p == Finish(Some(o), Removed(own, t.server, k, calls)) && t'.reg == t.reg && t'.inf == t.inf
            && F.OnlyAt(t.server, t'.server, k)
            && (t'.server == t.server || F.Removes(t.server, t'.server, k, own))
            && (p.ok ==> !S.Carries(t'.server, k, own))
  {
    var p1 := StopGetStage(own, t, k, o, calls.fetch);
    Advance(own, t, k, StopGet(o), calls, p1, t);
    if k in t.server.objects {
      WithoutShrinksIffPresent(t.server.objects[k].finalizers, own);
      if p1.StopWrite? {
        var (server, ok) := S.Update(t.server, Released(p1.latest, own), calls.release);
        Advance(own, t, k, p1, calls, Finish(Some(o), ok), t.(server := server));
        F.UpdateKeepsValid(t.server, Released(p1.latest, own), calls.release);
      }
    }
  }

  /** Stop up to the finalizer: the entry is dropped, and the channel it held is closed. */
  lemma CloseContract(own: string, t: World, k: Key, o: ObjId, calls: Calls) returns (t': World)
    requires C.Owned(t.reg) && o < |t.inf.heap| && t.inf.heap[o].pc.gvk == PROVIDER_CONFIG_GVK
    requires C.Mapped(t.reg, k) !! t.reg.closed
    ensures Complete(own, t, k, StopEntry(o), calls) == Complete(own, t', k, StopGet(o), calls)
    ensures t'.server == t.server && t'.inf == t.inf
    ensures t'.reg.controllers == t.reg.controllers - {k}
    ensures t'.reg.closed == t.reg.closed + C.Mapped(t.reg, k)
    ensures t'.reg.owner == t.reg.owner && t'.reg.sets == t.reg.sets && !t'.reg.doubleClose
  {
    var p1 := StopEntryStage(t, k, o);
    Advance(own, t, k, StopEntry(o), calls, p1, t);
    t' := t;
    if p1.StopDelete? {
      var t2 := t.(reg := Deleted(t.reg, k));
      Advance(own, t, k, p1, calls, StopClose(o, p1.cs), t2);
      var (p3, t3) := StopCloseStep(t2, o, p1.cs);
      Advance(own, t2, k, StopClose(o, p1.cs), calls, p3, t3);
      t' := t3;
    }
  }

  /**
   Stop always drops the entry and closes its channel, and touches nothing of another key, whatever becomes of the
   finalizer; it succeeds exactly if the finalizer is gone from the server. A retry finds no entry, so it closes
   nothing again.
   */
  lemma StopContract(own: string, t: World, k: Key, o: ObjId, calls: Calls)
    requires S.Valid(t.server) && C.Owned(t.reg) && o < |t.inf.heap| && t.inf.heap[o].pc.gvk == PROVIDER_CONFIG_GVK
    requires C.Mapped(t.reg, k) !! t.reg.closed
    ensures var (p, t') := Complete(own, t, k, StopEntry(o), calls);
            && p == Finish(Some(o), Removed(own, t.server, k, calls)) && F.OnlyAt(t.server, t'.server, k)
            && t'.reg.controllers == t.reg.controllers - {k}
            && t'.reg.closed == t.reg.closed + C.Mapped(t.reg, k)
            && t'.reg.owner == t.reg.owner && t'.reg.sets == t.reg.sets && !t'.reg.doubleClose
            && (t'.server == t.server || F.Removes(t.server, t'.server, k, own))
            && (p.ok ==> !S.Carries(t'.server, k, own))
  {
    var t1 := CloseContract(own, t, k, o, calls);
    RemovalContract(own, t1, k, o, calls);
  }
}
