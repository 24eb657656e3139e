/**
 * The unique ids of the per-circuit entities: `<controller>-<circuit>-<kind>`, where the
 * circuit part is the circuit subentry's unique id and the kind names the entity.
 */
module Naming {
  function EntityUniqueId(controllerUniqueId: string, circuitUniqueId: string, kind: string): string {
    controllerUniqueId + "-" + circuitUniqueId + "-" + kind
  }

  /**
   * Within one controller and one entity kind, distinct circuit subentries get distinct
   * entity ids; and one circuit's entities of distinct kinds get distinct ids.
   */
  lemma {:induction false} EntityUniqueIdInjective(controllerUniqueId: string, a: string, b: string,
                                                   kind: string, otherKind: string)
    ensures EntityUniqueId(controllerUniqueId, a, kind) == EntityUniqueId(controllerUniqueId, b, kind) <==> a == b
    ensures EntityUniqueId(controllerUniqueId, a, kind) == EntityUniqueId(controllerUniqueId, a, otherKind)
            <==> kind == otherKind
  {
    var p := controllerUniqueId + "-";
    var x, y := EntityUniqueId(controllerUniqueId, a, kind), EntityUniqueId(controllerUniqueId, b, kind);
    if x == y {
      assert |a| == |b|;
      assert a == x[|p|..|p| + |a|];
      assert b == y[|p|..|p| + |b|];
    }
    var q := controllerUniqueId + "-" + a + "-";
    var z := EntityUniqueId(controllerUniqueId, a, otherKind);
    if x == z {
      assert kind == x[|q|..];
      assert otherKind == z[|q|..];
    }
  }
}
