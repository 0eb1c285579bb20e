/** The filtered informer factory: one informer for each kind, and a cleanup that stops them all. */
module FilteredFactory {
  import opened Filtering
  import opened FilteredEvents
  import C = FilteredCache

  datatype Kind = Nodes | Leases

  datatype Call = InformerCall(kind: Kind) | CleanupCall

  /** Some call asks for `kind`, and a cleanup comes later. */
  predicate CleanedAfter(calls: seq<Call>, kind: Kind) {
    calls != [] &&
    (CleanedAfter(calls[..|calls| - 1], kind) ||
     (calls[|calls| - 1].CleanupCall? && InformerCall(kind) in calls[..|calls| - 1]))
  }

  lemma OneMore(calls: seq<Call>, i: nat)
    requires i < |calls|
    ensures forall kind :: InformerCall(kind) in calls[..i + 1] <==>
        InformerCall(kind) in calls[..i] || calls[i] == InformerCall(kind)
    ensures forall kind :: CleanedAfter(calls[..i + 1], kind) <==>
                           CleanedAfter(calls[..i], kind) || (calls[i].CleanupCall? && InformerCall(kind) in calls[..i])
  {
    assert calls[..i + 1] == calls[..i] + [calls[i]];
    assert calls[..i + 1][..i] == calls[..i];
  }

  class FilteredSharedInformerFactory {
    const f: Filter
    const nodeIndexer: C.Indexer
    const leaseIndexer: C.Indexer
    var informers: seq<ProviderConfigFilteredInformer>
    var nodeInformer: ProviderConfigFilteredInformer?
    var leaseInformer: ProviderConfigFilteredInformer?
    /** History: every informer this factory has given to a caller. */
    ghost var handedOut: set<ProviderConfigFilteredInformer>

    constructor (f: Filter, nodeIndexer: C.Indexer, leaseIndexer: C.Indexer)
      ensures Valid() && handedOut == {} && informers == []
      ensures this.f == f && this.nodeIndexer == nodeIndexer && this.leaseIndexer == leaseIndexer
    {
      this.f, this.nodeIndexer, this.leaseIndexer := f, nodeIndexer, leaseIndexer;
      informers, nodeInformer, leaseInformer, handedOut := [], null, null, {};
    }

    ghost function Memo(kind: Kind): ProviderConfigFilteredInformer?
      reads this
    {
      if kind == Nodes then nodeInformer else leaseInformer
    }

    /** Only the memoised informers were ever handed out, and each of them is registered for cleanup or stopped. */
    ghost predicate Valid()
      reads this, handedOut, informers
    {
      && (forall inf :: inf in handedOut ==> inf == nodeInformer || inf == leaseInformer)
      && (nodeInformer != null ==> nodeInformer in handedOut)
      && (leaseInformer != null ==> leaseInformer in handedOut)
      && (forall inf :: inf in informers ==> inf in handedOut)
      && (forall inf :: inf in handedOut ==> inf in informers || inf.stopped)
      && (nodeInformer != null ==> nodeInformer.indexer == nodeIndexer && nodeInformer.f == f)
      && (leaseInformer != null ==> leaseInformer.indexer == leaseIndexer && leaseInformer.f == f)
    }

    /**
     Informer of the node or the lease wrapper. A kind gets a new informer once; a memoised one is returned even if it
     is stopped.
     */
    method Informer(kind: Kind) returns (inf: ProviderConfigFilteredInformer)
      requires Valid()
      modifies this, nodeIndexer`indexers, leaseIndexer`indexers
      ensures Valid() && inf == Memo(kind) && handedOut == old(handedOut) + {inf}
      ensures if old(Memo(kind)) != null then inf == old(Memo(kind)) && inf.stopped == old(inf.stopped) &&
        informers == old(informers)
              else fresh(inf) && !inf.stopped && informers == old(informers) + [inf]
      ensures kind != Nodes ==> nodeInformer == old(nodeInformer)
      ensures kind != Leases ==> leaseInformer == old(leaseInformer)
    {
      if kind == Nodes && nodeInformer != null {
        inf := nodeInformer;
      } else if kind == Leases && leaseInformer != null {
        inf := leaseInformer;
      } else if kind == Nodes {
        inf := ProviderConfigFilteredInformer.NewFilteredInformer(nodeIndexer, f);
        informers, nodeInformer := informers + [inf], inf;
      } else {
        inf := ProviderConfigFilteredInformer.NewFilteredInformer(leaseIndexer, f);
        informers, leaseInformer := informers + [inf], inf;
      }
      handedOut := handedOut + {inf};
    }

    /** Stops every informer handed out so far. The memo keeps them, so they are handed out again, stopped. */
    method Cleanup()
      requires Valid()
      modifies this`informers, informers
      ensures Valid() && informers == []
      ensures forall inf :: inf in handedOut ==> inf.stopped
      ensures forall inf :: inf in handedOut ==> inf.delivered == old(inf.delivered)
    {
      for i := 0 to |informers|
        invariant informers == old(informers) && Valid()
        invariant forall j :: 0 <= j < i ==> informers[j].stopped
        invariant forall inf :: inf in handedOut && old(inf.stopped) ==> inf.stopped
        invariant forall inf :: inf in handedOut ==> inf.delivered == old(inf.delivered)
      {
        informers[i].Cleanup();
      }
      informers := [];
    }

    ghost predicate Stopped(kind: Kind)
      reads this, Memo(kind)
    {
      Memo(kind) != null && Memo(kind).stopped
    }

    ghost predicate MemosDiffer()
      reads this
    {
      nodeInformer == null || nodeInformer != leaseInformer
    }

    /** One call: a kind that is asked for has an informer from then on, and a cleanup stops what is there. */
    method Do(call: Call)
      requires Valid() && MemosDiffer()
      modifies this, informers, nodeIndexer`indexers, leaseIndexer`indexers
      ensures Valid() && MemosDiffer() && fresh(handedOut - old(handedOut))
      ensures call.CleanupCall? ==> forall inf :: inf in handedOut ==> inf.stopped
      ensures forall kind :: Memo(kind) != null <==> old(Memo(kind)) != null || call == InformerCall(kind)
      ensures forall kind :: Stopped(kind) <==> old(Stopped(kind)) || (call.CleanupCall? && old(Memo(kind)) != null)
    {
      match call
      case InformerCall(kind) =>
        var inf := this.Informer(kind);
        assert forall other :: other != kind ==> Memo(other) == old(Memo(other));
      case CleanupCall =>
        Cleanup();
    }

    /**
     Any run of calls: at most one informer of each kind is ever made, and it is stopped exactly if a cleanup came
     after the first call that asked for it, whatever calls came after that.
     */
    method AnyRun(calls: seq<Call>)
      requires Valid() && handedOut == {}
      modifies this, nodeIndexer`indexers, leaseIndexer`indexers
      ensures Valid() && |handedOut| <= 2
      ensures calls != [] && calls[|calls| - 1].CleanupCall? ==> forall inf :: inf in handedOut ==> inf.stopped
      ensures forall kind :: Memo(kind) != null <==> InformerCall(kind) in calls
      ensures forall kind :: Stopped(kind) <==> CleanedAfter(calls, kind)
    {
      for i := 0 to |calls|
        invariant Valid() && MemosDiffer() && fresh(handedOut)
        invariant i > 0 && calls[i - 1].CleanupCall? ==> forall inf :: inf in handedOut ==> inf.stopped
        invariant forall kind :: Memo(kind) != null <==> InformerCall(kind) in calls[..i]
        invariant forall kind :: Stopped(kind) <==> CleanedAfter(calls[..i], kind)
      {
        OneMore(calls, i);
        assert forall j :: 0 <= j < |informers| ==> fresh(informers[j]) by {
          assert forall j :: 0 <= j < |informers| ==> informers[j] in informers;
        }
        Do(calls[i]);
      }
      assert calls[..|calls|] == calls;
      AtMostTwo();
    }

    lemma AtMostTwo()
      requires Valid()
      ensures |handedOut| <= 2
    {
      var nodes := if nodeInformer == null then {} else {nodeInformer};
      var leases := if leaseInformer == null then {} else {leaseInformer};
      assert handedOut == nodes + leases;
    }
  }

  /** Asked again after a cleanup, a new factory returns the informer it returned before, stopped. */
  method AskedAgain(f: Filter, nodeIndexer: C.Indexer, leaseIndexer: C.Indexer, kind: Kind)
    returns (first: ProviderConfigFilteredInformer, again: ProviderConfigFilteredInformer)
    modifies nodeIndexer`indexers, leaseIndexer`indexers
    ensures again == first && again.stopped
  {
    var factory := new FilteredSharedInformerFactory(f, nodeIndexer, leaseIndexer);
    first := factory.Informer(kind);
    factory.Cleanup();
    again := factory.Informer(kind);
  }
}
