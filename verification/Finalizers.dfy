/**
 The list of finalizers of an object.
 */
module Finalizers {

  /** controllerutil.RemoveFinalizer drops every occurrence. */
  function Dropped(finalizers: seq<string>, f: string): seq<string> {
    if finalizers == [] then []
    else if finalizers[0] == f then Dropped(finalizers[1..], f)
    else [finalizers[0]] + Dropped(finalizers[1..], f)
  }

  lemma {:induction false} DroppedHasNone(finalizers: seq<string>, f: string)
    ensures f !in Dropped(finalizers, f)
    ensures forall g | g != f :: g in Dropped(finalizers, f) <==> g in finalizers
  {
    if finalizers != [] {
      DroppedHasNone(finalizers[1..], f);
      assert finalizers == [finalizers[0]] + finalizers[1..];
    }
  }

  lemma {:induction false} DroppedNothing(finalizers: seq<string>, f: string)
    requires f !in finalizers
    ensures Dropped(finalizers, f) == finalizers
  {
    if finalizers != [] {
      DroppedNothing(finalizers[1..], f);
    }
  }

  /** containsString (internal/controller/vpcnattunnel_controller.go:438-445) */
  method ContainsString(slice: seq<string>, s: string) returns (found: bool)
    ensures found <==> s in slice
  {
    for i := 0 to |slice|
      invariant s !in slice[..i]
    {
      if slice[i] == s {
        return true;
      }
    }
    return false;
  }
}
