/** The memory of stream tokens across calls: the most recent 10,000 token hashes are refused when they come again. */
module StreamTokens {

  const CAPACITY := 10_000

  /** The accepted hashes, in order, and the last `CAPACITY` of them. */
  function Recent(accepted: seq<string>): seq<string> {
    if |accepted| <= CAPACITY then accepted else accepted[|accepted| - CAPACITY..]
  }

  ghost predicate Distinct(hashes: seq<string>) {
    forall i, j :: 0 <= i < j < |hashes| ==> hashes[i] != hashes[j]
  }

  /** A hash accepted twice was forgotten in between: more than `CAPACITY` admissions lie between the two. */
  ghost predicate SpacedApart(accepted: seq<string>) {
    forall i, j :: 0 <= i < j < |accepted| && accepted[i] == accepted[j] ==> j - i > CAPACITY
  }

  lemma SpacedSnoc(accepted: seq<string>, hash: string)
    requires SpacedApart(accepted) && hash !in Recent(accepted)
    ensures SpacedApart(accepted + [hash])
  {
  }

  function Elements(hashes: seq<string>): set<string> {
    set hash | hash in hashes
  }

  lemma ElementsOfTail(hashes: seq<string>)
    requires Distinct(hashes) && hashes != []
    ensures Elements(hashes[1..]) == Elements(hashes) - {hashes[0]} && Distinct(hashes[1..])
  {
  }

  lemma DistinctSnoc(hashes: seq<string>, hash: string)
    requires Distinct(hashes) && hash !in hashes
    ensures Distinct(hashes + [hash]) && Elements(hashes + [hash]) == Elements(hashes) + {hash}
  {
  }

  lemma RecentSnoc(accepted: seq<string>, hash: string)
    ensures var longer := Recent(accepted) + [hash];
      Recent(accepted + [hash]) == if |longer| > CAPACITY then longer[1..] else longer
  {
  }

  class StreamTokenMemory {
    var seenStreamTokenHashes: set<string>
    var streamTokenHashOrder: seq<string>
    ghost var accepted: seq<string>

    ghost predicate Valid()
      reads this
    {
      && streamTokenHashOrder == Recent(accepted)
      && Distinct(streamTokenHashOrder)
      && seenStreamTokenHashes == Elements(streamTokenHashOrder)
      && SpacedApart(accepted)
    }

    constructor ()
      ensures Valid() && accepted == []
    {
      seenStreamTokenHashes, streamTokenHashOrder, accepted := {}, [], [];
    }

    /** A hash is refused exactly when it is among the last 10,000 accepted; otherwise it is remembered. */
    method Admit(hash: string) returns (admitted: bool)
      requires Valid()
      modifies this
      ensures Valid()
      ensures admitted <==> hash !in Recent(old(accepted))
      ensures accepted == if admitted then old(accepted) + [hash] else old(accepted)
    {
      if hash in seenStreamTokenHashes {
        return false;
      }
      Remember(hash);
      return true;
    }

    method Remember(hash: string)
      requires Valid() && hash !in Recent(accepted)
      modifies this
      ensures Valid() && accepted == old(accepted) + [hash]
    {
      DistinctSnoc(streamTokenHashOrder, hash);
      RecentSnoc(accepted, hash);
      SpacedSnoc(accepted, hash);
      seenStreamTokenHashes := seenStreamTokenHashes + {hash};
      streamTokenHashOrder := streamTokenHashOrder + [hash];
      accepted := accepted + [hash];
      if |streamTokenHashOrder| > CAPACITY {
        ElementsOfTail(streamTokenHashOrder);
        var expired := streamTokenHashOrder[0];
        streamTokenHashOrder := streamTokenHashOrder[1..];
        seenStreamTokenHashes := seenStreamTokenHashes - {expired};
      }
    }
  }
}
