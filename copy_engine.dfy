/** api/copy_engine.py: the copy-trade engine skeleton. Followers are only ever
    appended; distribution reports how many there are and echoes the order. */
module CopyEngines {

  datatype Distribution<O> = Distribution(distributedTo: nat, masterOrder: O)

  class CopyEngine<F> {
    var followers: seq<F>

    constructor ()
      ensures followers == []
    {
      followers := [];
    }

    /** add_follower: append at the end; duplicates are kept. */
    method AddFollower(follower: F)
      modifies this
      ensures followers == old(followers) + [follower]
      ensures |followers| == |old(followers)| + 1
    {
      followers := followers + [follower];
    }

    /** distribute: the follower count and the unchanged master order; the
      follower list is left as it is. */
    method Distribute<O>(masterOrder: O) returns (d: Distribution<O>)
      ensures d.distributedTo == |followers|
      ensures d.masterOrder == masterOrder
    {
      d := Distribution(|followers|, masterOrder);
    }
  }
}
