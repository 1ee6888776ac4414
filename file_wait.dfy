/** `waitUntilFileExistsAndIsBiggerThan`: poll a file every 100 ms until it is
    readable and larger than a size in KB, for at most a given number of
    seconds, then report success or why it failed. The file system is
    replaced by a sequence of observations, one per poll. */
module FileWait {

  import opened Wrappers

  type Int32 = x: int | -0x8000_0000 <= x < 0x8000_0000

  /** Java `int` arithmetic wraps modulo 2^32. */
  function Wrap32(x: int): (r: Int32)
    ensures (r - x) % 0x1_0000_0000 == 0
  {
    (x + 0x8000_0000) % 0x1_0000_0000 - 0x8000_0000
  }

  /** Java integer division truncates toward zero. */
  function JavaDiv(a: int, b: int): (q: int)
    requires b > 0
    ensures a >= 0 ==> q == a / b
    ensures a < 0 ==> q == -((-a) / b)
  {
    if a >= 0 then a / b else -((-a) / b)
  }

  const Interval := 100

  /** `(maxSecondsWait * 1000) / interval`, in 32-bit arithmetic. */
  function MaxLoops(maxSecondsWait: Int32): (loops: int)
    ensures -21474836 <= loops <= 21474836
  {
    JavaDiv(Wrap32(maxSecondsWait * 1000), Interval)
  }

  /** Up to 2147483 seconds the bound is ten polls a second. */
  lemma MaxLoopsInRange(maxSecondsWait: Int32)
    requires 0 <= maxSecondsWait <= 2147483
    ensures MaxLoops(maxSecondsWait) == 10 * maxSecondsWait
  {
    assert Wrap32(maxSecondsWait * 1000) == maxSecondsWait * 1000;
  }

  /** From 2147484 up to 4294967 seconds the product wraps to a negative
      number and no poll is made. */
  lemma MaxLoopsOverflow(maxSecondsWait: Int32)
    requires 2147484 <= maxSecondsWait <= 4294967
    ensures MaxLoops(maxSecondsWait) < 0
  {
    assert Wrap32(maxSecondsWait * 1000) == maxSecondsWait * 1000 - 0x1_0000_0000;
  }

  /** At 4294968 seconds the product has wrapped all the way round, and the
      bound is positive again but tiny. */
  lemma MaxLoopsWrapsBack()
    ensures MaxLoops(4294968) == 7
  {
    assert Wrap32(4294968 * 1000) == 704;
  }

  /** One poll of the file: `Files.exists`, `Files.isReadable`, and the result
      of `Files.size`, which is None when that call fails. */
  datatype Probe = Probe(present: bool, readable: bool, size: Option<nat>)

  datatype FileError =
    | DoesNotExist
    | NotReadable
    | TooSmall(lastKbs: int)

  predicate Available(p: Probe)
  {
    p.present && p.readable
  }

  /** The value of `bytes` after k polls: the last size read successfully
      from an available file, or 0. A failed size read keeps the old value. */
  function BytesAfter(observe: nat -> Probe, k: nat): nat
  {
    if k == 0 then 0
    else if Available(observe(k - 1)) && observe(k - 1).size.Some? then observe(k - 1).size.value
    else BytesAfter(observe, k - 1)
  }

  /** Whether poll k (counted from 0) finds the file available and strictly
      larger than `kbs` KB, in whole KB. */
  predicate BiggerAt(observe: nat -> Probe, kbs: Int32, k: nat)
  {
    Available(observe(k)) && BytesAfter(observe, k + 1) / 1024 > kbs
  }

  /** The error reported after a timeout, from the file as it is then. */
  function Classify(p: Probe, lastKbs: int): FileError
  {
    if !p.present then DoesNotExist
    else if !p.readable then NotReadable
    else TooSmall(lastKbs)
  }

  /** The polling loop. `observe(k)` is what poll k sees; the check after a
      timeout sees `observe(loops)`. On success the last size seen, in KB, is
      returned. */
  method WaitUntilFileExistsAndIsBiggerThan(observe: nat -> Probe, kbs: Int32, maxSecondsWait: Int32)
    returns (r: Result<int, FileError>, loops: nat)
    ensures loops <= if MaxLoops(maxSecondsWait) > 0 then MaxLoops(maxSecondsWait) else 0
    ensures forall k :: 0 <= k < loops - 1 ==> !BiggerAt(observe, kbs, k)
    ensures r.Ok? <==> exists k :: 0 <= k < MaxLoops(maxSecondsWait) && BiggerAt(observe, kbs, k)
    ensures r.Ok? ==> loops > 0 && BiggerAt(observe, kbs, loops - 1)
    ensures r.Ok? ==> r.value == BytesAfter(observe, loops) / 1024 && r.value > kbs
    ensures r.Err? ==> loops == (if MaxLoops(maxSecondsWait) > 0 then MaxLoops(maxSecondsWait) else 0)
    ensures r.Err? ==> r.error == Classify(observe(loops), BytesAfter(observe, loops) / 1024)
  {
    var maxLoops := MaxLoops(maxSecondsWait);
    loops := 0;
    var bytes: nat := 0;
    var bigger := false;
    while !bigger && loops < maxLoops
      invariant loops <= if maxLoops > 0 then maxLoops else 0
      invariant bytes == BytesAfter(observe, loops)
      invariant bigger <==> loops > 0 && BiggerAt(observe, kbs, loops - 1)
      invariant forall k :: 0 <= k < loops - 1 ==> !BiggerAt(observe, kbs, k)
      decreases maxLoops - loops
    {
      var probe := observe(loops);
      bigger := probe.present && probe.readable;
      if bigger {
        if probe.size.Some? {
          bytes := probe.size.value;
        }
        bigger := bytes / 1024 > kbs;
      }
      loops := loops + 1;
    }
    if !bigger && loops >= maxLoops {
      var now := observe(loops);
      var error;
      if !now.present {
        error := DoesNotExist;
      } else if !now.readable {
        error := NotReadable;
      } else {
        error := TooSmall(bytes / 1024);
      }
      r := Err(error);
    } else {
      r := Ok(bytes / 1024);
    }
  }

  /** The threshold is strict and counts whole KB: a file that stays at
      `kbs` KB plus up to 1023 bytes is never accepted, however long the wait. */
  lemma {:induction false} ThresholdIsStrict(observe: nat -> Probe, kbs: Int32, extra: nat, k: nat)
    requires kbs >= 0 && extra < 1024
    requires forall i: nat :: observe(i) == Probe(true, true, Some(kbs * 1024 + extra))
    ensures BytesAfter(observe, k + 1) == kbs * 1024 + extra
    ensures !BiggerAt(observe, kbs, k)
  {
    assert observe(k) == Probe(true, true, Some(kbs * 1024 + extra));
    assert (kbs * 1024 + extra) / 1024 == kbs;
  }
}
