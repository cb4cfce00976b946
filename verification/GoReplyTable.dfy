/** The Go transport's pending map and reply channels, changed in place as the source does under its mutex. */
module GoReplyTable {
  import opened Wire
  import opened GoTransport

  ghost predicate Distinct(pending: map<string, nat>) {
    forall m, n :: m in pending && n in pending && pending[m] == pending[n] ==> m == n
  }

  lemma ValuesWithout(pending: map<string, nat>, msgId: string)
    requires msgId in pending && Distinct(pending)
    ensures (pending - {msgId}).Values == pending.Values - {pending[msgId]}
  {
    var rest := pending - {msgId};
    forall i | i in pending.Values - {pending[msgId]}
      ensures i in rest.Values
    {
      var m :| m in pending && pending[m] == i;
      assert m in rest && rest[m] == i;
    }
  }

  /** The channels after those in `done` have been cancelled. */
  ghost function CancelSet(chans: seq<Chan>, done: set<nat>, err: Failure): (after: seq<Chan>)
    ensures |after| == |chans|
  {
    seq(|chans|, i requires 0 <= i < |chans| => if i in done then CancelChan(chans[i], err) else chans[i])
  }

  lemma CancelOneMore(chans: seq<Chan>, done: set<nat>, ch: nat, err: Failure)
    requires ch < |chans| && ch !in done
    ensures CancelSet(chans, done, err)[ch] == chans[ch]
    ensures CancelSet(chans, done, err)[ch := CancelChan(chans[ch], err)] == CancelSet(chans, done + {ch}, err)
  {
  }

  class ReplyTable {
    var pending: map<string, nat>
    var chans: seq<Chan>

    /** Every pending channel is open and empty, and no channel is pending under two ids. */
    ghost predicate Valid()
      reads this
    {
      && (forall m :: m in pending ==>
            pending[m] < |chans| && chans[pending[m]].buf == [] && !chans[pending[m]].closed)
      && Distinct(pending)
    }

    constructor ()
      ensures Valid() && pending == map[] && chans == []
    {
      pending, chans := map[], [];
    }

    /** A repeated id loses its old entry; the old channel itself is left alone. */
    method Insert(msgId: string, owner: nat) returns (ch: nat)
      requires Valid()
      modifies this
      ensures Valid()
      ensures ch == |old(chans)| && chans == old(chans) + [Chan([], false, owner)]
      ensures pending == old(pending)[msgId := ch]
    {
      ch := |chans|;
      chans := chans + [Chan([], false, owner)];
      pending := pending[msgId := ch];
    }

    /** A matching entry leaves the map and its channel ends up holding exactly the reply, closed. */
    method Deliver(msgId: string, reply: Reply) returns (delivered: bool)
      requires Valid()
      modifies this
      ensures Valid()
      ensures delivered <==> Claim(old(pending), msgId).Some?
      ensures pending == old(pending) - {msgId}
      ensures !delivered ==> chans == old(chans)
      ensures delivered ==>
                var ch := old(pending)[msgId];
                chans == old(chans)[ch := old(chans)[ch].(buf := [reply], closed := true)]
    {
      if msgId !in pending {
        return false;
      }
      var ch := pending[msgId];
      pending := pending - {msgId};
      assert |chans[ch].buf| < 1 && !chans[ch].closed;
      assert chans[ch].buf + [reply] == [reply];
      chans := chans[ch := chans[ch].(buf := chans[ch].buf + [reply])];
      chans := chans[ch := chans[ch].(closed := true)];
      return true;
    }

    method Remove(msgId: string)
      requires Valid()
      modifies this`pending
      ensures Valid() && pending == old(pending) - {msgId}
    {
      pending := pending - {msgId};
    }

    /** One round of the cancel loop: a send that finds room, a close of an open channel, a delete. */
    method CancelOne(msgId: string, err: Failure)
      requires Valid() && msgId in pending
      modifies this
      ensures Valid() && pending == old(pending) - {msgId}
      ensures chans == old(chans)[old(pending)[msgId] := CancelChan(old(chans)[old(pending)[msgId]], err)]
    {
      var ch := pending[msgId];
      assert !chans[ch].closed;
      chans := chans[ch := CancelChan(chans[ch], err)];
      pending := pending - {msgId};
    }

    /** Every pending channel gets the error and is closed, each once; the map is empty afterwards. */
    method CancelPending(err: Failure)
      requires Valid()
      modifies this
      ensures Valid() && pending == map[]
      ensures chans == CancelChans(old(chans), old(pending), err)
    {
      ghost var all, before := pending.Values, chans;
      var left := pending.Keys;
      while left != {}
        invariant Valid() && left == pending.Keys && pending.Values <= all
        invariant chans == CancelSet(before, all - pending.Values, err)
      {
        var msgId :| msgId in left;
        ghost var ch, done := pending[msgId], all - pending.Values;
        ValuesWithout(pending, msgId);
        CancelOneMore(before, done, ch, err);
        CancelOne(msgId, err);
        assert done + {ch} == all - pending.Values;
        left := left - {msgId};
      }
      assert all - pending.Values == all;
    }
  }
}
