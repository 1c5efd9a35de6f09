/**
 * The consistent-hash ring of the consistenthash package, which is not
 * part of this model: a ring is the replica count, the hash function and
 * the members it was built from, and the owner lookup is a parameter.
 */
module HashRing {

  /** A consistenthash.Hash value, by identity; `NilHash` is a nil function. */
  datatype HashFn = NilHash | ChecksumIEEE | CustomHash(id: nat)

  /** consistenthash.New(replicas, hash) followed by Add(members...). */
  datatype Ring = Ring(replicas: int, hash: HashFn, members: seq<string>)

  /** Map.Get: the owner of a key on a ring, a deterministic function of both. */
  type Locator = (Ring, string) -> string

  /**
   * What a lookup is expected to answer. A ring holds `replicas` virtual
   * nodes per member, so it is empty when it has no members or a replica
   * count of zero or less; an empty ring answers "", any other a member.
   */
  ghost predicate PicksMember(locate: Locator)
  {
    forall ring: Ring, key: string ::
      && (ring.members == [] || ring.replicas <= 0 ==> locate(ring, key) == "")
      && (ring.members != [] && ring.replicas > 0 ==> locate(ring, key) in ring.members)
  }

  /** The law can be met: a lookup that always picks the first member of a non-empty ring does. */
  lemma FirstMemberPicks()
    ensures PicksMember((ring: Ring, key: string) => if ring.members == [] || ring.replicas <= 0 then "" else ring.members[0])
  {
  }
}
