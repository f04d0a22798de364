/** The history classifier of the transactions route: it sorts the records
    the transaction service returns for one user into four buckets, each
    kept in ledger order. */
module History {
  import opened BankTypes

  datatype Bucket = Deposits | Withdraws | TransfersSent | TransfersReceived

  datatype TransactionHistory = TransactionHistory(
    deposits: seq<Record>,
    withdraws: seq<Record>,
    transfersSent: seq<Record>,
    transfersReceived: seq<Record>)
  {
    function Get(b: Bucket): seq<Record> {
      match b
      case Deposits => deposits
      case Withdraws => withdraws
      case TransfersSent => transfersSent
      case TransfersReceived => transfersReceived
    }
  }

  /** The condition of each of the four comprehensions. */
  predicate Belongs(t: Record, idUser: int, b: Bucket) {
    match b
    case Deposits => t.idSource == External && t.idTarget == idUser
    case Withdraws => t.idSource == idUser && t.idTarget == External
    case TransfersSent => t.idSource == idUser && t.idTarget !in [External, idUser]
    case TransfersReceived => t.idSource !in [External, idUser] && t.idTarget == idUser
  }

  /** One comprehension: the records of `ts` that fall in bucket `b`, in
      their order in `ts`. */
  function Select(ts: seq<Record>, idUser: int, b: Bucket): (out: seq<Record>)
    ensures |out| <= |ts|
    ensures forall t :: t in out <==> t in ts && Belongs(t, idUser, b)
  {
    if ts == [] then []
    else if Belongs(ts[0], idUser, b) then [ts[0]] + Select(ts[1..], idUser, b)
    else Select(ts[1..], idUser, b)
  }

  /** The four comprehensions together: the answer of the transactions
      route. Each bucket holds exactly the records meeting its condition,
      and for a real account as focal user no record is in two buckets. */
  function Classify(ts: seq<Record>, idUser: int): (h: TransactionHistory)
    ensures forall b, t :: t in h.Get(b) <==> t in ts && Belongs(t, idUser, b)
    ensures idUser != External ==>
              forall b1, b2, t :: b1 != b2 && t in h.Get(b1) ==> t !in h.Get(b2)
  {
    TransactionHistory(
      Select(ts, idUser, Deposits),
      Select(ts, idUser, Withdraws),
      Select(ts, idUser, TransfersSent),
      Select(ts, idUser, TransfersReceived))
  }

  /** The user takes part in the record, as source or as target. */
  predicate TakesPart(t: Record, idUser: int) {
    t.idSource == idUser || t.idTarget == idUser
  }

  /** The records of a user as the transaction service returns them: those
      the user takes part in, in ledger order. */
  function Involving(ts: seq<Record>, idUser: int): (out: seq<Record>)
    ensures forall t :: t in out <==> t in ts && TakesPart(t, idUser)
  {
    if ts == [] then []
    else if TakesPart(ts[0], idUser) then [ts[0]] + Involving(ts[1..], idUser)
    else Involving(ts[1..], idUser)
  }

  /** A record the classifier puts somewhere: the user takes part in it,
      and it is not a transfer from the user to the user. */
  predicate Classifiable(t: Record, idUser: int) {
    TakesPart(t, idUser) && !(t.idSource == idUser && t.idTarget == idUser)
  }

  /** The records the classifier puts somewhere, in order. */
  function Classifiables(ts: seq<Record>, idUser: int): (out: seq<Record>)
    ensures forall t :: t in out <==> t in ts && Classifiable(t, idUser)
  {
    if ts == [] then []
    else if Classifiable(ts[0], idUser) then [ts[0]] + Classifiables(ts[1..], idUser)
    else Classifiables(ts[1..], idUser)
  }

  /** `xs` is `ys` with some elements left out, the rest in order. */
  predicate IsSubsequence(xs: seq<Record>, ys: seq<Record>)
    decreases |ys|
  {
    xs == [] ||
    (ys != [] &&
     ((xs[0] == ys[0] && IsSubsequence(xs[1..], ys[1..])) || IsSubsequence(xs, ys[1..])))
  }

  // ---------------------------------------------------------------------
  // Order

  /** A bucket of a concatenation is the concatenation of the buckets:
      records keep their relative order. */
  lemma {:induction false} SelectAppend(xs: seq<Record>, ys: seq<Record>, idUser: int, b: Bucket)
    ensures Select(xs + ys, idUser, b) == Select(xs, idUser, b) + Select(ys, idUser, b)
  {
    if xs == [] {
      assert xs + ys == ys;
    } else {
      assert (xs + ys)[1..] == xs[1..] + ys;
      SelectAppend(xs[1..], ys, idUser, b);
    }
  }

  /** What appending `t` to the ledger adds to bucket `b`. */
  function Added(t: Record, idUser: int, b: Bucket): seq<Record> {
    if Belongs(t, idUser, b) then [t] else []
  }

  /** A record appended to the ledger is appended to the buckets whose
      condition it meets, and to no other. */
  lemma ClassifyAppend(ts: seq<Record>, t: Record, idUser: int)
    ensures var h := Classify(ts, idUser);
            Classify(ts + [t], idUser)
            == TransactionHistory(h.deposits + Added(t, idUser, Deposits),
                                  h.withdraws + Added(t, idUser, Withdraws),
                                  h.transfersSent + Added(t, idUser, TransfersSent),
                                  h.transfersReceived + Added(t, idUser, TransfersReceived))
  {
    forall b: Bucket
      ensures Select(ts + [t], idUser, b) == Select(ts, idUser, b) + Added(t, idUser, b)
    {
      SelectAppend(ts, [t], idUser, b);
      assert [t][1..] == [];
    }
  }

  /** Each bucket is an order-preserving subsequence of the input. */
  lemma {:induction false} SelectIsSubsequence(ts: seq<Record>, idUser: int, b: Bucket)
    ensures IsSubsequence(Select(ts, idUser, b), ts)
  {
    if ts != [] {
      SelectIsSubsequence(ts[1..], idUser, b);
    }
  }

  // ---------------------------------------------------------------------
  // Disjointness and coverage

  /** For any focal user but the sentinel, a record meets at most one of
      the four conditions (exactly one when it is classifiable). */
  lemma BelongsToAtMostOne(t: Record, idUser: int, b1: Bucket, b2: Bucket)
    requires idUser != External
    requires Belongs(t, idUser, b1) && Belongs(t, idUser, b2)
    ensures b1 == b2
  {
  }

  /** The four buckets are pairwise disjoint when the focal user is a real
      account. */
  lemma BucketsDisjoint(ts: seq<Record>, idUser: int, b1: Bucket, b2: Bucket)
    requires idUser != External && b1 != b2
    ensures forall t :: t in Select(ts, idUser, b1) ==> t !in Select(ts, idUser, b2)
  {
  }

  /** With the sentinel as focal user, the disjointness fails: a record
      from the sentinel to itself is both a deposit and a withdrawal. */
  lemma SentinelFocalOverlaps(amount: real, currency: string)
    ensures var t := Record(External, External, amount, currency, Reference);
            var h := Classify([t], External);
            h.deposits == [t] && h.withdraws == [t]
  {
  }

  /** A record from the user to the user lands in no bucket. */
  lemma SelfRecordInNoBucket(ts: seq<Record>, idUser: int, t: Record)
    requires idUser != External
    requires t.idSource == idUser && t.idTarget == idUser
    ensures forall b :: t !in Classify(ts, idUser).Get(b)
  {
  }

  /** Every classifiable record of the input lands in exactly one bucket,
      and nothing else lands anywhere: the buckets together hold, as a
      multiset, exactly the classifiable records. */
  lemma {:induction false} ClassifyPartitions(ts: seq<Record>, idUser: int)
    requires idUser != External
    ensures multiset(Select(ts, idUser, Deposits)) + multiset(Select(ts, idUser, Withdraws))
              + multiset(Select(ts, idUser, TransfersSent))
              + multiset(Select(ts, idUser, TransfersReceived))
            == multiset(Classifiables(ts, idUser))
  {
    if ts != [] {
      var t, rest := ts[0], ts[1..];
      ClassifyPartitions(rest, idUser);
      var d, w, s, r := Select(rest, idUser, Deposits), Select(rest, idUser, Withdraws),
                        Select(rest, idUser, TransfersSent), Select(rest, idUser, TransfersReceived);
      var here := if Classifiable(t, idUser) then multiset{t} else multiset{};
      assert multiset(Classifiables(ts, idUser)) == here + multiset(Classifiables(rest, idUser));
      assert multiset(Select(ts, idUser, Deposits))
             == (if Belongs(t, idUser, Deposits) then multiset{t} else multiset{}) + multiset(d);
      assert multiset(Select(ts, idUser, Withdraws))
             == (if Belongs(t, idUser, Withdraws) then multiset{t} else multiset{}) + multiset(w);
      assert multiset(Select(ts, idUser, TransfersSent))
             == (if Belongs(t, idUser, TransfersSent) then multiset{t} else multiset{}) + multiset(s);
      assert multiset(Select(ts, idUser, TransfersReceived))
             == (if Belongs(t, idUser, TransfersReceived) then multiset{t} else multiset{}) + multiset(r);
    }
  }

  // ---------------------------------------------------------------------
  // Stability

  /** Given that the transaction service returns exactly
      `Involving(ts, idUser)`, the answer is the classification of the
      whole ledger: classifying the records the user takes part in gives
      the same buckets as classifying all of them. */
  lemma {:induction false} ClassifyIgnoresUninvolved(ts: seq<Record>, idUser: int)
    ensures Classify(Involving(ts, idUser), idUser) == Classify(ts, idUser)
  {
    if ts != [] {
      ClassifyIgnoresUninvolved(ts[1..], idUser);
    }
  }

  /** Re-classifying a bucket gives the bucket back, and nothing in the
      other three. */
  lemma {:induction false} ReclassifyBucket(ts: seq<Record>, idUser: int, b: Bucket, b2: Bucket)
    requires idUser != External
    ensures Select(Select(ts, idUser, b), idUser, b2)
            == if b == b2 then Select(ts, idUser, b) else []
  {
    if ts != [] {
      ReclassifyBucket(ts[1..], idUser, b, b2);
      if Belongs(ts[0], idUser, b) && b != b2 && Belongs(ts[0], idUser, b2) {
        BelongsToAtMostOne(ts[0], idUser, b, b2);
      }
    }
  }

  /** One record of each kind for user 5: each lands in its own bucket. */
  lemma ClassifyExample(amount: real)
    ensures var d := Record(-1, 5, amount, "USD", "USD");
            var w := Record(5, -1, amount, "USD", "USD");
            var s := Record(5, 2, amount, "USD", "USD");
            var r := Record(3, 5, amount, "USD", "USD");
            Classify([d, w, s, r], 5) == TransactionHistory([d], [w], [s], [r])
  {
    var d := Record(-1, 5, amount, "USD", "USD");
    var w := Record(5, -1, amount, "USD", "USD");
    var s := Record(5, 2, amount, "USD", "USD");
    var r := Record(3, 5, amount, "USD", "USD");
    var ts := [d, w, s, r];
    assert ts[1..] == [w, s, r] && ts[1..][1..] == [s, r] && ts[1..][1..][1..] == [r];
    assert Select([r], 5, Deposits) == [] && Select([s, r], 5, Deposits) == []
           && Select([w, s, r], 5, Deposits) == [];
    assert Select([r], 5, Withdraws) == [] && Select([s, r], 5, Withdraws) == [];
    assert Select([r], 5, TransfersSent) == [];
    assert Select([s, r], 5, TransfersSent) == [s] && Select([w, s, r], 5, TransfersSent) == [s];
    assert Select([s, r], 5, TransfersReceived) == [r] && Select([w, s, r], 5, TransfersReceived) == [r];
    assert Select(ts, 5, Deposits) == [d] && Select(ts, 5, Withdraws) == [w];
    assert Select(ts, 5, TransfersSent) == [s] && Select(ts, 5, TransfersReceived) == [r];
  }
}
