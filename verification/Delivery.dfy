/** Telegram delivery behind a Redis SET NX EX lock. */
module Delivery {
  import opened Base
  import opened JobService
  import opened Threads

  const DELIVERY_LOCK_TTL_SECONDS: nat := 86400

  datatype Send = Send(job: JobId, at: Time)

  /** Redis keys with their expiry times, and every send attempt so far. Neither is part of the database. */
  datatype Outbox = Outbox(keys: map<JobId, Time>, sends: seq<Send>)

  /** What the outside world does: the Redis call raises (having set the key or not), the send raises, or both work. */
  datatype Wire = RedisFails(keySet: bool) | SendFails | SendWorks

  datatype RedisFault = RedisFault

  predicate KeyFree(keys: map<JobId, Time>, job: JobId, now: Time) {
    job in keys ==> keys[job] <= now
  }

  function Locked(keys: map<JobId, Time>, job: JobId, now: Time): map<JobId, Time> {
    keys[job := now + DELIVERY_LOCK_TTL_SECONDS]
  }

  function Deliver(o: Outbox, job: Job, row: Row, chat: Option<UserId>, wire: Wire, now: Time):
      (Outbox, Result<bool, RedisFault>)
  {
    if job.status != Completed then (o, Ok(false))
    else if row.job != Some(job.id) then (o, Ok(false))
    else if wire.RedisFails? then
      (if wire.keySet && KeyFree(o.keys, job.id, now) then o.(keys := Locked(o.keys, job.id, now)) else o, Err(RedisFault))
    else if !KeyFree(o.keys, job.id, now) then (o, Ok(false))
    else
      var o' := o.(keys := Locked(o.keys, job.id, now));
      if chat.None? then (o', Ok(false))
      else (o'.(sends := o.sends + [Send(job.id, now)]), Ok(wire.SendWorks?))
  }

  /**
   * A send is attempted exactly for a completed job with its own row, a working Redis, a key that is absent or expired, and
   * a chat. The key is then taken for a day, as it is without a chat, and where a failing Redis has set it.
   */
  lemma DeliversExactly(o: Outbox, job: Job, row: Row, chat: Option<UserId>, wire: Wire, now: Time)
    ensures var (o', r) := Deliver(o, job, row, chat, wire, now);
      var bound, free := job.status == Completed && row.job == Some(job.id), job.id !in o.keys || o.keys[job.id] <= now;
      && o'.sends == (if bound && !wire.RedisFails? && free && chat.Some? then o.sends + [Send(job.id, now)] else o.sends)
      && o'.keys == (if bound && free && (wire.RedisFails? ==> wire.keySet) then o.keys[job.id := now + 86400] else o.keys)
      && (r.Err? <==> bound && wire.RedisFails?)
      && (r == Ok(true) <==> bound && free && chat.Some? && wire == SendWorks)
  {
  }

  /** Send attempts for one job lie at least one lock lifetime apart. */
  predicate SendsSpaced(sends: seq<Send>) {
    forall i, k :: 0 <= i < k < |sends| && sends[i].job == sends[k].job ==>
      sends[k].at >= sends[i].at + DELIVERY_LOCK_TTL_SECONDS
  }

  /** Every past send still has its key, which does not expire before the lifetime is over. */
  predicate KeysGuard(o: Outbox) {
    forall i :: 0 <= i < |o.sends| ==>
      o.sends[i].job in o.keys && o.keys[o.sends[i].job] >= o.sends[i].at + DELIVERY_LOCK_TTL_SECONDS
  }

  /** One delivery keeps sends spaced, whatever happens on the wire. */
  lemma DeliverKeepsSpacing(o: Outbox, job: Job, row: Row, chat: Option<UserId>, wire: Wire, now: Time)
    requires SendsSpaced(o.sends) && KeysGuard(o)
    ensures var o' := Deliver(o, job, row, chat, wire, now).0;
            && SendsSpaced(o'.sends) && KeysGuard(o')
            && (o'.sends == o.sends
                || (o'.sends == o.sends + [Send(job.id, now)] && job.status == Completed && row.job == Some(job.id)))
  {
  }

  class DeliveryService {
    var keys: map<JobId, Time>
    var sends: seq<Send>

    function Box(): Outbox
      reads this
    {
      Outbox(keys, sends)
    }

    constructor ()
      ensures Box() == Outbox(map[], [])
    {
      keys, sends := map[], [];
    }

    /** SET key 1 NX EX ttl. */
    method AcquireDeliveryLock(job: JobId, wire: Wire, now: Time) returns (r: Result<bool, RedisFault>)
      modifies this`keys
      ensures r == if wire.RedisFails? then Err(RedisFault) else Ok(KeyFree(old(keys), job, now))
      ensures keys == if KeyFree(old(keys), job, now) && (wire.RedisFails? ==> wire.keySet)
                      then old(keys)[job := now + DELIVERY_LOCK_TTL_SECONDS] else old(keys)
    {
      var free := job !in keys || keys[job] <= now;
      if wire.RedisFails? {
        if wire.keySet && free { keys := keys[job := now + DELIVERY_LOCK_TTL_SECONDS]; }
        return Err(RedisFault);
      }
      if free { keys := keys[job := now + DELIVERY_LOCK_TTL_SECONDS]; }
      return Ok(free);
    }

    method DeliverCompletedAnalysis(job: Job, row: Row, chat: Option<UserId>, wire: Wire, now: Time)
      returns (r: Result<bool, RedisFault>)
      modifies this
      ensures (Box(), r) == Deliver(old(Box()), job, row, chat, wire, now)
      ensures var bound, free := job.status == Completed && row.job == Some(job.id), job.id !in old(keys) || old(keys)[job.id] <= now;
        && sends == (if bound && !wire.RedisFails? && free && chat.Some? then old(sends) + [Send(job.id, now)] else old(sends))
        && keys == (if bound && free && (wire.RedisFails? ==> wire.keySet) then old(keys)[job.id := now + 86400] else old(keys))
        && (r.Err? <==> bound && wire.RedisFails?)
        && (r == Ok(true) <==> bound && free && chat.Some? && wire == SendWorks)
    {
      if job.status != Completed { return Ok(false); }
      if row.job != Some(job.id) { return Ok(false); }
      var acquired := AcquireDeliveryLock(job.id, wire, now);
      if acquired.Err? { return Err(acquired.error); }
      if !acquired.value { return Ok(false); }
      if chat.None? { return Ok(false); }
      sends := sends + [Send(job.id, now)];
      if wire.SendFails? { return Ok(false); }
      return Ok(true);
    }
  }
}
