/** Values shared by every module: optional values, keys, Kubernetes objects. */
module Domain {

  datatype Option<+T> = None | Some(value: T)

  /** Cache and queue keys. ProviderConfigs are cluster scoped, so their key is their name. */
  type Key = string

  /** Identity of a stop channel, of a ControllerSet and of a cached object in memory. */
  type Chan = nat
  type SetId = nat
  type ObjId = nat

  datatype GroupVersionKind = GroupVersionKind(group: string, version: string, kind: string)

  const PROVIDER_CONFIG_GVK := GroupVersionKind("cloud.gke.io", "v1", "ProviderConfig")

  /** The parts of an unstructured ProviderConfig the framework looks at; `terminating` is a set deletion timestamp. */
  datatype Object = Object(name: Key, gvk: GroupVersionKind, terminating: bool, finalizers: seq<string>, version: nat)

  // ---- sequences without repetition ----

  ghost predicate Distinct<T>(s: seq<T>) {
    forall i, j :: 0 <= i < j < |s| ==> s[i] != s[j]
  }

  /** `s` lists the elements of `elements`, each once. */
  ghost predicate Enumerates<T(!new)>(s: seq<T>, elements: set<T>) {
    (forall x :: x in s <==> x in elements) && Distinct(s)
  }

  // ---- finalizer lists ----

  /** What is left of a finalizer list when every occurrence of `name` is deleted in place. */
  function Without(finalizers: seq<string>, name: string): (rest: seq<string>)
    ensures name !in rest
    ensures |rest| <= |finalizers|
  {
    if finalizers == [] then []
    else if finalizers[0] == name then Without(finalizers[1..], name)
    else [finalizers[0]] + Without(finalizers[1..], name)
  }

  /** The caller detects the presence of a name by comparing lengths: the list shrinks exactly when it was there. */
  lemma {:induction false} WithoutShrinksIffPresent(finalizers: seq<string>, name: string)
    ensures |Without(finalizers, name)| != |finalizers| <==> name in finalizers
    ensures name !in finalizers ==> Without(finalizers, name) == finalizers
    ensures forall other :: other != name ==> multiset(Without(finalizers, name))[other] == multiset(finalizers)[other]
  {
    if finalizers == [] {
    } else {
      WithoutShrinksIffPresent(finalizers[1..], name);
      assert finalizers == [finalizers[0]] + finalizers[1..];
    }
  }

  /** What is left of the first name. */
  function Head(finalizers: seq<string>, name: string): seq<string>
    requires finalizers != []
  {
    if finalizers[0] == name then [] else [finalizers[0]]
  }

  lemma Unfolded(finalizers: seq<string>, name: string)
    requires finalizers != []
    ensures Without(finalizers, name) == Head(finalizers, name) + Without(finalizers[1..], name)
  {
  }

  lemma Associative(a: seq<string>, b: seq<string>, c: seq<string>)
    ensures a + (b + c) == (a + b) + c
  {
  }

  /** Deleting a name distributes over concatenation, so the other names keep their order. */
  lemma {:induction false} WithoutConcat(a: seq<string>, b: seq<string>, name: string)
    ensures Without(a + b, name) == Without(a, name) + Without(b, name)
  {
    if a == [] {
      assert a + b == b;
    } else {
      calc {
        Without(a + b, name);
      == { Unfolded(a + b, name); }
        Head(a + b, name) + Without((a + b)[1..], name);
      == { assert (a + b)[1..] == a[1..] + b; }
        Head(a, name) + Without(a[1..] + b, name);
      == { WithoutConcat(a[1..], b, name); }
        Head(a, name) + (Without(a[1..], name) + Without(b, name));
      == { Associative(Head(a, name), Without(a[1..], name), Without(b, name)); }
        (Head(a, name) + Without(a[1..], name)) + Without(b, name);
      == { Unfolded(a, name); }
        Without(a, name) + Without(b, name);
      }
    }
  }

  lemma WithoutIdempotent(finalizers: seq<string>, name: string)
    ensures Without(Without(finalizers, name), name) == Without(finalizers, name)
  {
    WithoutShrinksIffPresent(Without(finalizers, name), name);
  }
}
