/**
 * The safe wrapper around the native engine: the native library as an
 * object that answers from oracles and logs every call made into it, and the
 * `Cobra` handle that owns one engine instance.
 */
module Engine {
  import opened Wrappers
  import opened Numeric
  import opened Errors

  /** A native `pv_cobra` pointer; 0 is the null pointer. */
  type Ptr = nat

  const NULL: Ptr := 0

  /** What `pv_cobra_init` reports: its status and the pointer it wrote. */
  datatype InitReply = InitReply(status: u32, handle: Ptr)

  /** What `pv_cobra_process` reports: its status and the confidence it wrote, if any. */
  datatype ProcessReply = ProcessReply(status: u32, written: Option<real>)

  /** One call into the native library. */
  datatype Call =
    | InitCall(accessKey: seq<u8>, reply: InitReply)
    | ProcessCall(handle: Ptr, pcm: seq<i16>)
    | DeleteCall(handle: Ptr)

  /** The engine instance a call operates on, if it operates on one. */
  function UsedHandle(c: Call): Option<Ptr> {
    match c
    case InitCall(_, _) => None
    case ProcessCall(h, _) => Some(h)
    case DeleteCall(h) => Some(h)
  }

  /** Whether a call hands out the instance h. */
  predicate Opens(c: Call, h: Ptr) {
    c.InitCall? && c.reply.status == STATUS_SUCCESS && c.reply.handle != NULL && c.reply.handle == h
  }

  /** The live instances after one more call. */
  function AfterCall(open: set<Ptr>, c: Call): set<Ptr> {
    match c
    case InitCall(_, reply) =>
      if reply.status == STATUS_SUCCESS && reply.handle != NULL then open + {reply.handle} else open
    case ProcessCall(_, _) => open
    case DeleteCall(h) => open - {h}
  }

  /** The instances that a successful init handed out and no delete has released. */
  function Open(log: seq<Call>): set<Ptr> {
    if log == [] then {} else AfterCall(Open(log[..|log| - 1]), log[|log| - 1])
  }

  lemma OpenSnoc(log: seq<Call>, c: Call)
    ensures Open(log + [c]) == AfterCall(Open(log), c)
  {
    assert (log + [c])[..|log|] == log;
  }

  /** Every process and delete call in the log was made on a live instance. */
  ghost predicate Disciplined(log: seq<Call>) {
    forall k :: 0 <= k < |log| && UsedHandle(log[k]).Some? ==> UsedHandle(log[k]).value in Open(log[..k])
  }

  lemma DisciplinedSnoc(log: seq<Call>, c: Call)
    requires Disciplined(log)
    requires UsedHandle(c).Some? ==> UsedHandle(c).value in Open(log)
    ensures Disciplined(log + [c])
  {
    var log' := log + [c];
    forall k | 0 <= k < |log'| && UsedHandle(log'[k]).Some?
      ensures UsedHandle(log'[k]).value in Open(log'[..k])
    {
      if k < |log| {
        assert log'[..k] == log[..k];
      } else {
        assert log'[..k] == log;
      }
    }
  }

  /** After `DeleteCall(h)`, h stays released until some init hands it out again. */
  lemma {:induction false} ClosedAfterDelete(log: seq<Call>, i: nat, j: nat, h: Ptr)
    requires i < j <= |log|
    requires log[i] == DeleteCall(h)
    requires forall k :: i < k < j ==> !Opens(log[k], h)
    ensures h !in Open(log[..j])
    decreases j
  {
    assert log[..j] == log[..j - 1] + [log[j - 1]];
    OpenSnoc(log[..j - 1], log[j - 1]);
    if j > i + 1 {
      ClosedAfterDelete(log, i, j - 1, h);
    }
  }

  /**
   * In a disciplined log, an instance is deleted at most once and never
   * processed after its deletion, unless it was handed out anew.
   */
  lemma NoUseAfterDelete(log: seq<Call>, i: nat, j: nat, h: Ptr)
    requires Disciplined(log)
    requires i < j < |log|
    requires log[i] == DeleteCall(h)
    requires forall k :: i < k < j ==> !Opens(log[k], h)
    ensures UsedHandle(log[j]) != Some(h)
  {
    ClosedAfterDelete(log, i, j, h);
  }

  /**
   * The native library. `sampleRate` and `frameLength` are the free queries
   * `pv_sample_rate` and `pv_cobra_frame_length`: fixed for the library, so
   * every query returns the same value and needs no instance. The engine's
   * answers are oracles: they may depend on everything called so far.
   */
  class Library {
    const sampleRate: nat
    const frameLength: nat
    const initReply: (seq<Call>, seq<u8>) -> InitReply
    const processReply: (seq<Call>, Ptr, seq<i16>) -> ProcessReply
    var log: seq<Call>

    ghost predicate Valid()
      reads this
    {
      Disciplined(log)
    }

    constructor (sampleRate: nat, frameLength: nat,
                 initReply: (seq<Call>, seq<u8>) -> InitReply,
                 processReply: (seq<Call>, Ptr, seq<i16>) -> ProcessReply)
      ensures Valid() && log == []
      ensures this.sampleRate == sampleRate && this.frameLength == frameLength
      ensures this.initReply == initReply && this.processReply == processReply
    {
      this.sampleRate := sampleRate;
      this.frameLength := frameLength;
      this.initReply := initReply;
      this.processReply := processReply;
      log := [];
    }

    /** `pv_cobra_init`: takes a NUL-terminated key, so the key holds no NUL. */
    method Init(accessKey: seq<u8>) returns (reply: InitReply)
      requires Valid()
      requires 0 !in accessKey
      modifies this
      ensures Valid()
      ensures reply == initReply(old(log), accessKey)
      ensures log == old(log) + [InitCall(accessKey, reply)]
    {
      reply := initReply(log, accessKey);
      DisciplinedSnoc(log, InitCall(accessKey, reply));
      log := log + [InitCall(accessKey, reply)];
    }

    /**
     * `pv_cobra_process`: reads `frameLength` samples from the buffer it is
     * given, so the buffer must hold at least that many; only that prefix
     * reaches the engine.
     */
    method Process(handle: Ptr, pcm: seq<i16>) returns (reply: ProcessReply)
      requires Valid()
      requires handle in Open(log)
      requires |pcm| >= frameLength
      modifies this
      ensures Valid()
      ensures reply == processReply(old(log), handle, pcm[..frameLength])
      ensures log == old(log) + [ProcessCall(handle, pcm)]
      ensures Open(log) == Open(old(log))
    {
      reply := processReply(log, handle, pcm[..frameLength]);
      DisciplinedSnoc(log, ProcessCall(handle, pcm));
      OpenSnoc(log, ProcessCall(handle, pcm));
      log := log + [ProcessCall(handle, pcm)];
    }

    /** `pv_cobra_delete`: releases a live instance. */
    method Delete(handle: Ptr)
      requires Valid()
      requires handle in Open(log)
      modifies this
      ensures Valid()
      ensures log == old(log) + [DeleteCall(handle)]
      ensures Open(log) == Open(old(log)) - {handle}
    {
      DisciplinedSnoc(log, DeleteCall(handle));
      OpenSnoc(log, DeleteCall(handle));
      log := log + [DeleteCall(handle)];
    }
  }

  /**
   * The result `Cobra::new` selects once init has run: a failure status wins,
   * then a null pointer, and only a non-null pointer with status 0 succeeds.
   */
  function InitOutcome(reply: InitReply): (r: Result<Ptr, Error>)
    ensures r.Success? <==> reply.status == STATUS_SUCCESS && reply.handle != NULL
    ensures r.Success? ==> r.value == reply.handle
    ensures r.Failure? ==> (r.error == NullValue <==> reply.status == STATUS_SUCCESS)
    ensures r.Failure? && reply.status != STATUS_SUCCESS ==> StatusCode(r.error) == Some(reply.status)
    ensures reply.status != STATUS_SUCCESS ==> r == Failure(FromStatus(reply.status))
  {
    if reply.status != STATUS_SUCCESS then
      StatusCodeOfFromStatus(reply.status);
      Failure(FromStatus(reply.status))
    else if reply.handle == NULL then Failure(NullValue)
    else Success(reply.handle)
  }

  /**
   * The result `Cobra::process` selects: a failure status becomes its error;
   * status 0 yields the confidence the engine wrote, which starts out as 0.0.
   */
  function ProcessOutcome(reply: ProcessReply): (r: Result<real, Error>)
    ensures r.Success? <==> reply.status == STATUS_SUCCESS
    ensures r.Success? && reply.written.Some? ==> r.value == reply.written.value
    ensures r.Success? && reply.written.None? ==> r.value == 0.0
    ensures r.Failure? ==> r.error != NullValue && StatusCode(r.error) == Some(reply.status)
    ensures reply.status != STATUS_SUCCESS ==> r == Failure(FromStatus(reply.status))
  {
    var confidence := if reply.written.Some? then reply.written.value else 0.0;
    if reply.status != STATUS_SUCCESS then
      StatusCodeOfFromStatus(reply.status);
      Failure(FromStatus(reply.status))
    else Success(confidence)
  }

  /** `Cobra`: owns one live engine instance until it is dropped. */
  class Cobra {
    const lib: Library
    const handle: Ptr
    var live: bool

    ghost predicate Valid()
      reads this, lib
    {
      lib.Valid() && handle != NULL && (live ==> handle in Open(lib.log))
    }

    /** `Cobra { cobra }`: wraps a pointer init has just handed out. */
    constructor Wrap(lib: Library, handle: Ptr)
      requires lib.Valid() && handle != NULL && handle in Open(lib.log)
      ensures this.lib == lib && this.handle == handle && live
      ensures Valid()
    {
      this.lib := lib;
      this.handle := handle;
      live := true;
    }

    /**
     * `Cobra::new`: a key with an interior NUL fails with `NullValue` before
     * init is called; otherwise init runs once and `InitOutcome` decides.
     */
    static method New(lib: Library, accessKey: seq<u8>) returns (r: Result<Cobra, Error>)
      requires lib.Valid()
      modifies lib
      ensures lib.Valid()
      ensures 0 in accessKey ==> r == Failure(NullValue) && lib.log == old(lib.log)
      ensures 0 !in accessKey ==>
        var reply := lib.initReply(old(lib.log), accessKey);
        lib.log == old(lib.log) + [InitCall(accessKey, reply)] &&
        match InitOutcome(reply)
        case Failure(e) => r == Failure(e)
        case Success(h) =>
          r.Success? && fresh(r.value) && r.value.lib == lib && r.value.handle == h
          && r.value.live && r.value.Valid()
    {
      if 0 in accessKey {
        return Failure(NullValue);
      }
      var reply := lib.Init(accessKey);
      OpenSnoc(old(lib.log), InitCall(accessKey, reply));
      var outcome := InitOutcome(reply);
      if outcome.Failure? {
        r := Failure(outcome.error);
      } else {
        var cobra := new Cobra.Wrap(lib, outcome.value);
        r := Success(cobra);
      }
    }

    /** `Cobra::process`: one native call on the live instance. */
    method Process(pcm: seq<i16>) returns (r: Result<real, Error>)
      requires Valid() && live
      requires |pcm| >= lib.frameLength
      modifies lib
      ensures Valid()
      ensures lib.log == old(lib.log) + [ProcessCall(handle, pcm)]
      ensures r == ProcessOutcome(lib.processReply(old(lib.log), handle, pcm[..lib.frameLength]))
    {
      var reply := lib.Process(handle, pcm);
      r := ProcessOutcome(reply);
    }

    /** `Drop for Cobra`: deletes the instance, exactly once, since it needs a live value. */
    method Drop()
      requires Valid() && live
      modifies this, lib
      ensures Valid() && !live
      ensures lib.log == old(lib.log) + [DeleteCall(handle)]
      ensures handle !in Open(lib.log)
    {
      lib.Delete(handle);
      live := false;
    }
  }
}
