/**
 The single-slot mailbox `ConvolutionDemoDSP::BufferTransfer` that hands a freshly decoded
 impulse response from the control thread to the audio thread.

 The spin lock is not modelled: the outcome of the audio thread's try-lock is an input of `Get`,
 and `Set` (which takes the lock blockingly) always gets it. Every call is recorded in a ghost
 history of events, and the object invariant ties the two real fields to two reference
 definitions over that history: `Pending` (a publish not yet followed by a poll that got the
 lock) and `LastPublished` (the argument of the most recent publish).
 */
module Handoff {
  import opened Wrappers

  /** An impulse response ready for the convolution engine: the shape of its sample buffer and its
      sample rate. The samples themselves are not modelled. The sample rate is only ever copied,
      so an exact `real` stands for the source's `double`. */
  datatype BufferWithSampleRate = BufferWithSampleRate(numChannels: int, numSamples: int, sampleRate: real)

  /** What a default-constructed BufferWithSampleRate holds: an empty buffer at rate 0. */
  const EmptyBuffer := BufferWithSampleRate(0, 0, 0.0)

  /** One call on the mailbox: a publish (`set`) or a poll (`get`) whose try-lock did or did not succeed. */
  datatype Event = Publish(buffer: BufferWithSampleRate) | Poll(lockAcquired: bool)

  /** A poll that got the lock: the only event that can consume a pending buffer. */
  predicate Consumes(e: Event) {
    e.Poll? && e.lockAcquired
  }

  /** Reference definition: some publish in `h` has not been followed by a poll that got the lock. */
  predicate Pending(h: seq<Event>) {
    exists j :: 0 <= j < |h| && h[j].Publish? && forall k :: j < k < |h| ==> !Consumes(h[k])
  }

  /** The argument of the most recent publish in `h`, if there is one. */
  function LastPublished(h: seq<Event>): Option<BufferWithSampleRate> {
    if h == [] then None
    else if h[|h| - 1].Publish? then Some(h[|h| - 1].buffer)
    else LastPublished(h[..|h| - 1])
  }

  /** The poll at index `i` of `h` hands a buffer to its callback. */
  predicate DeliversAt(h: seq<Event>, i: int)
    requires 0 <= i < |h|
  {
    Consumes(h[i]) && Pending(h[..i])
  }

  /** A publish leaves a buffer pending, and it is the one just published. */
  lemma PublishMakesPending(h: seq<Event>, p: BufferWithSampleRate)
    ensures Pending(h + [Publish(p)])
    ensures LastPublished(h + [Publish(p)]) == Some(p)
  {
    var h' := h + [Publish(p)];
    assert h'[|h|].Publish?;
  }

  /** A poll that did not get the lock changes neither whether a buffer is pending nor which. */
  lemma FailedPollKeeps(h: seq<Event>)
    ensures Pending(h + [Poll(false)]) == Pending(h)
    ensures LastPublished(h + [Poll(false)]) == LastPublished(h)
  {
    var h' := h + [Poll(false)];
    assert h'[..|h|] == h;
    if Pending(h) {
      var j :| 0 <= j < |h| && h[j].Publish? && forall k :: j < k < |h| ==> !Consumes(h[k]);
      assert h'[j].Publish? && forall k :: j < k < |h'| ==> !Consumes(h'[k]);
    }
    if Pending(h') {
      var j :| 0 <= j < |h'| && h'[j].Publish? && forall k :: j < k < |h'| ==> !Consumes(h'[k]);
      assert j < |h| && h[j].Publish? && forall k :: j < k < |h| ==> !Consumes(h[k]);
    }
  }

  /** A poll that got the lock leaves nothing pending: each publish is consumed at most once. */
  lemma SuccessfulPollClears(h: seq<Event>)
    ensures !Pending(h + [Poll(true)])
  {
    var h' := h + [Poll(true)];
    forall j | 0 <= j < |h'| && h'[j].Publish?
      ensures exists k :: j < k < |h'| && Consumes(h'[k])
    {
      assert Consumes(h'[|h|]);
    }
  }

  /** Any number of polls that did not get the lock keep a pending buffer pending, unchanged:
      it waits for a later poll instead of being lost. */
  lemma {:induction false} FailedPollsKeep(h: seq<Event>, fails: seq<Event>)
    requires forall i :: 0 <= i < |fails| ==> fails[i] == Poll(false)
    ensures Pending(h + fails) == Pending(h)
    ensures LastPublished(h + fails) == LastPublished(h)
  {
    if fails != [] {
      var init := fails[..|fails| - 1];
      FailedPollsKeep(h, init);
      assert h + fails == (h + init) + [Poll(false)];
      FailedPollKeeps(h + init);
    } else {
      assert h + fails == h;
    }
  }

  /** Last write wins: after two publishes and any number of polls that missed the lock, the next
      poll that gets the lock delivers the second buffer; the first is never delivered. */
  lemma LastWriteWins(h: seq<Event>, p1: BufferWithSampleRate, p2: BufferWithSampleRate, fails: seq<Event>)
    requires forall i :: 0 <= i < |fails| ==> fails[i] == Poll(false)
    ensures var h' := h + [Publish(p1), Publish(p2)] + fails + [Poll(true)];
            DeliversAt(h', |h'| - 1) && LastPublished(h'[..|h'| - 1]) == Some(p2)
  {
    var before := h + [Publish(p1)];
    PublishMakesPending(before, p2);
    assert h + [Publish(p1), Publish(p2)] == before + [Publish(p2)];
    FailedPollsKeep(before + [Publish(p2)], fails);
    var h' := h + [Publish(p1), Publish(p2)] + fails + [Poll(true)];
    assert h'[..|h'| - 1] == before + [Publish(p2)] + fails;
  }

  /** At most one delivery per publish: between two polls that both deliver there is a publish. */
  lemma DeliveriesAreSeparatedByPublish(h: seq<Event>, i: int, k: int)
    requires 0 <= i < k < |h|
    requires DeliversAt(h, i) && DeliversAt(h, k)
    ensures exists j :: i < j < k && h[j].Publish?
  {
  }

  /** A mailbox nothing was ever published to never delivers anything. */
  lemma NothingPublishedNothingDelivered(h: seq<Event>, i: int)
    requires forall j :: 0 <= j < |h| ==> h[j].Poll?
    requires 0 <= i < |h|
    ensures !DeliversAt(h, i)
  {
  }

  /** `ConvolutionDemoDSP::BufferTransfer`: the slot and its "new buffer" flag. */
  class BufferTransfer {
    var buffer: BufferWithSampleRate
    var newBuffer: bool
    ghost var history: seq<Event>

    /** The flag is up exactly when a publish is pending, and then the slot holds the last buffer published. */
    ghost predicate Valid()
      reads this
    {
      newBuffer == Pending(history) &&
      (newBuffer ==> LastPublished(history) == Some(buffer))
    }

    /** The buffer the next poll that gets the lock will deliver, if any. */
    ghost function NextDelivery(): Option<BufferWithSampleRate>
      reads this
    {
      if Pending(history) then LastPublished(history) else None
    }

    constructor ()
      ensures Valid()
      ensures history == [] && buffer == EmptyBuffer && !newBuffer
    {
      buffer := EmptyBuffer;
      newBuffer := false;
      history := [];
    }

    /** `set`: overwrite the slot and raise the flag; an unconsumed earlier buffer is discarded. */
    method Set(p: BufferWithSampleRate)
      requires Valid()
      modifies this
      ensures Valid()
      ensures buffer == p && newBuffer
      ensures history == old(history) + [Publish(p)]
      ensures NextDelivery() == Some(p)
    {
      PublishMakesPending(history, p);
      buffer := p;
      newBuffer := true;
      history := history + [Publish(p)];
    }

    /** `get`: if the try-lock succeeded and a buffer is pending, call back with it and lower the flag.
        `delivered` is the buffer the callback is called with (None: it is not called), and `fn` gives
        what the callback leaves in the slot, since it receives the slot by mutable reference. */
    method Get(lockAcquired: bool, fn: BufferWithSampleRate -> BufferWithSampleRate)
      returns (delivered: Option<BufferWithSampleRate>)
      requires Valid()
      modifies this
      ensures Valid()
      ensures history == old(history) + [Poll(lockAcquired)]
      ensures delivered == if lockAcquired && old(newBuffer) then Some(old(buffer)) else None
      ensures delivered == if lockAcquired then old(NextDelivery()) else None
      ensures newBuffer == (old(newBuffer) && !lockAcquired)
      ensures buffer == if delivered.Some? then fn(old(buffer)) else old(buffer)
      ensures NextDelivery() == if lockAcquired then None else old(NextDelivery())
      ensures delivered.Some? <==> DeliversAt(history, |history| - 1)
    {
      if lockAcquired {
        SuccessfulPollClears(history);
      } else {
        FailedPollKeeps(history);
      }
      if lockAcquired && newBuffer {
        delivered := Some(buffer);
        buffer := fn(buffer);
        newBuffer := false;
      } else {
        delivered := None;
      }
      history := history + [Poll(lockAcquired)];
      assert history[..|history| - 1] == old(history);
    }
  }

  /** The end-to-end behaviour of the mailbox: a poll before any publish delivers nothing; a
      publish is delivered once and only once; of two publishes without a successful poll between
      them only the second is delivered, even after a poll that missed the lock. */
  method HandoffScenario(b1: BufferWithSampleRate, b2: BufferWithSampleRate, b3: BufferWithSampleRate)
    returns (early: Option<BufferWithSampleRate>, first: Option<BufferWithSampleRate>,
             again: Option<BufferWithSampleRate>, contended: Option<BufferWithSampleRate>,
             latest: Option<BufferWithSampleRate>)
    ensures early == None
    ensures first == Some(b1) && again == None
    ensures contended == None && latest == Some(b3)
  {
    var keep := (b: BufferWithSampleRate) => b;
    var mailbox := new BufferTransfer();
    early := mailbox.Get(true, keep);
    mailbox.Set(b1);
    first := mailbox.Get(true, keep);
    again := mailbox.Get(true, keep);
    mailbox.Set(b2);
    mailbox.Set(b3);
    contended := mailbox.Get(false, keep);
    latest := mailbox.Get(true, keep);
  }
}
