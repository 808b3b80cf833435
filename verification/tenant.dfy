/**
 * The current-tenant slot. The source keeps it in a static ThreadLocal; here the
 * execution units are abstract ids and the slot is a map from a unit to the tenant
 * bound on it. A unit with no entry has no value, which is what ThreadLocal.get
 * yields before any set and after remove.
 */
module CurrentTenant {
  import opened Wrappers

  /** An execution unit (a thread in the source). */
  type UnitId = nat

  class Tenant {
    /** The binding of every unit that currently holds a tenant. */
    var slots: map<UnitId, string>

    /** A fresh slot: no unit has a value, since the ThreadLocal has no initial value. */
    constructor ()
      ensures slots == map[]
      ensures forall u: UnitId :: Get(u) == None
    {
      slots := map[];
    }

    /** Tenant.get as seen from unit `u`. */
    function Get(u: UnitId): (r: Option<string>)
      reads this
      ensures r.Some? <==> u in slots
      ensures r.Some? ==> r.value == slots[u]
    {
      if u in slots then Some(slots[u]) else None
    }

    /** Tenant.set on unit `u`: overwrites whatever the unit held; other units keep theirs. */
    method Set(u: UnitId, tenantId: string)
      modifies this
      ensures slots == old(slots)[u := tenantId]
      ensures Get(u) == Some(tenantId)
      ensures forall v :: v != u ==> Get(v) == old(Get(v))
    {
      slots := slots[u := tenantId];
    }

    /** Tenant.unset on unit `u`: the unit's value is removed; other units keep theirs. */
    method Unset(u: UnitId)
      modifies this
      ensures slots == old(slots) - {u}
      ensures Get(u) == None
      ensures forall v :: v != u ==> Get(v) == old(Get(v))
      ensures old(Get(u)).None? ==> slots == old(slots)
    {
      slots := slots - {u};
    }
  }
}
