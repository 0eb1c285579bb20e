/**
 The API server as the framework meets it: a versioned store with optimistic concurrency,
 deletion that waits for finalizers, and calls whose request or reply may be lost.
 */
module ApiServer {
  import opened Domain

  /** `published` is history: every version of every object the server has ever stored. */
  datatype Server = Server(objects: map<Key, Object>, next: nat, published: set<Object>)

  /** The fate of a call: answered, lost on the way in, or applied with its answer lost. */
  datatype Reply = Answered | RequestLost | AnswerLost

  datatype Fetched = Found(latest: Object) | NotFound | Unreachable

  const EMPTY := Server(map[], 0, {})

  /** The named object is stored and lists `finalizer`. */
  predicate Carries(s: Server, k: Key, finalizer: string) {
    k in s.objects && finalizer in s.objects[k].finalizers
  }

  /** Stores `o` under a new version, unless that releases an object whose deletion was waiting. */
  function Store(s: Server, o: Object): Server {
    if o.terminating && o.finalizers == [] then
      s.(objects := s.objects - {o.name}, next := s.next + 1)
    else
      var stored := o.(version := s.next);
      Server(s.objects[o.name := stored], s.next + 1, s.published + {stored})
  }

  predicate Accepts(s: Server, o: Object) {
    o.name in s.objects && s.objects[o.name].version == o.version
  }

  /** An update is applied only against the version it was computed from. The flag is what the caller sees. */
  function Update(s: Server, o: Object, reply: Reply): (Server, bool) {
    if reply == RequestLost || !Accepts(s, o) then (s, false)
    else (Store(s, o), reply == Answered)
  }

  function Fetch(s: Server, k: Key, reply: Reply): Fetched {
    if reply != Answered then Unreachable
    else if k in s.objects then Found(s.objects[k])
    else NotFound
  }

  // ---- other writers ----

  function Create(s: Server, o: Object): Server {
    if o.name in s.objects then s else Store(s, o.(terminating := false))
  }

  /** Deletion removes an object without finalizers at once and only marks any other. */
  function Delete(s: Server, k: Key): Server {
    if k !in s.objects then s else Store(s, s.objects[k].(terminating := true))
  }

  function Modify(s: Server, k: Key, finalizers: seq<string>): Server {
    if k !in s.objects then s else Store(s, s.objects[k].(finalizers := finalizers))
  }

  // ---- what every write keeps ----

  /** A version names one published object, and everything stored has been published. */
  ghost predicate Valid(s: Server) {
    && (forall p :: p in s.published ==> p.version < s.next)
    && (forall p, q :: p in s.published && q in s.published && p.version == q.version ==> p == q)
    && (forall k :: k in s.objects ==> s.objects[k].name == k && s.objects[k] in s.published)
  }

  lemma StoreKeepsValid(s: Server, o: Object)
    requires Valid(s)
    ensures Valid(Store(s, o))
    ensures Store(s, o).published >= s.published
    ensures forall k :: k != o.name ==> (k in Store(s, o).objects <==> k in s.objects)
    ensures forall k :: k != o.name && k in s.objects ==> Store(s, o).objects[k] == s.objects[k]
  {
  }
}
