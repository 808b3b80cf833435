/** The tenant registry: a value holding the set of known tenant names. */
module Registry {

  /** Lombok's @Data on a single Set field: the accessor is `names`, equality is by the set. */
  datatype Tenants = Tenants(names: set<string>)

  /** The registry made from a configured list: order and repetitions are forgotten. */
  function FromList(configured: seq<string>): (r: Tenants)
    ensures forall n :: n in r.names <==> n in configured
  {
    Tenants(set n | n in configured)
  }

  /** The accessor returns the set given to the constructor, and registries are equal
      exactly when their sets are. */
  lemma NamesAndEquality(s: set<string>, a: Tenants, b: Tenants)
    ensures Tenants(s).names == s
    ensures a == b <==> a.names == b.names
  {
  }

  /** Two configured lists with the same members, in any order and with any repetitions,
      give the same registry. */
  lemma FromListIgnoresOrderAndRepeats(xs: seq<string>, ys: seq<string>)
    requires forall n :: n in xs <==> n in ys
    ensures FromList(xs) == FromList(ys)
  {
    assert FromList(xs).names == FromList(ys).names;
  }
}
