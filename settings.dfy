/** The worker settings of just_jobs/settings.py: the signed job codec, the
    executor bounds read from the environment, and the startup and shutdown
    hooks that install and remove the executor pools in a worker's
    context. */
module Settings {
  import opened Common

  /** The delimiter `|` between signature and body. */
  const PIPE: byte := 124

  // ---------------------------------------------------------------------
  // Hex digests

  predicate IsLowerHex(c: byte) {
    48 <= c <= 57 || 97 <= c <= 102
  }

  predicate IsAscii(s: Bytes) {
    forall i :: 0 <= i < |s| ==> s[i] < 128
  }

  /** The ASCII code of the lowercase hexadecimal digit for `n`. */
  function HexDigit(n: int): (c: byte)
    requires 0 <= n < 16
    ensures IsLowerHex(c)
    ensures n < 10 ==> c == 48 + n
    ensures 10 <= n ==> c == 97 + (n - 10)
  {
    if n < 10 then 48 + n else 87 + n
  }

  /** `hexdigest()`: two lowercase hex digits per raw digest byte, high
      nibble first. The result never contains the delimiter, which is
      why the source signs with the hex form and not the raw bytes. */
  function HexDigest(raw: Bytes): (r: Bytes)
    ensures |r| == 2 * |raw|
    ensures forall i :: 0 <= i < |r| ==> IsLowerHex(r[i])
    ensures PIPE !in r && IsAscii(r)
  {
    if raw == [] then []
    else [HexDigit(raw[0] / 16), HexDigit(raw[0] % 16)] + HexDigest(raw[1..])
  }

  lemma HexDigitInjective(m: int, n: int)
    requires 0 <= m < 16 && 0 <= n < 16
    requires HexDigit(m) == HexDigit(n)
    ensures m == n
  {
  }

  /** Comparing hex digests compares the raw digests: the hex form loses
      nothing of the keyed hash. */
  lemma {:induction false} HexDigestInjective(a: Bytes, b: Bytes)
    requires HexDigest(a) == HexDigest(b)
    ensures a == b
  {
    if a != [] {
      var ha, hb := HexDigest(a), HexDigest(b);
      assert ha[0] == hb[0] && ha[1] == hb[1];
      HexDigitInjective(a[0] / 16, b[0] / 16);
      HexDigitInjective(a[0] % 16, b[0] % 16);
      assert a[0] == b[0];
      assert HexDigest(a[1..]) == ha[2..] == hb[2..] == HexDigest(b[1..]);
      HexDigestInjective(a[1..], b[1..]);
      assert a == [a[0]] + a[1..] && b == [b[0]] + b[1..];
    }
  }

  // ---------------------------------------------------------------------
  // Splitting on the first delimiter

  /** `s.split(d, 1)` unpacked into two parts: None when `d` does not occur
      (the unpacking raises), otherwise the part before the first `d` and
      everything after it. */
  function SplitFirst(s: Bytes, d: byte): (r: Option<(Bytes, Bytes)>)
    ensures r.None? <==> d !in s
    ensures r.Some? ==> d !in r.value.0 && s == r.value.0 + [d] + r.value.1
  {
    if s == [] then None
    else if s[0] == d then Some(([], s[1..]))
    else match SplitFirst(s[1..], d)
      case None => None
      case Some(parts) => Some(([s[0]] + parts.0, parts.1))
  }

  /** Splitting a join recovers its parts exactly when the first part is
      free of the delimiter; the second part may contain it. */
  lemma {:induction false} SplitFirstOfJoin(a: Bytes, d: byte, b: Bytes)
    requires d !in a
    ensures SplitFirst(a + [d] + b, d) == Some((a, b))
  {
    if a == [] {
      assert a + [d] + b == [d] + b;
    } else {
      assert (a + [d] + b)[1..] == a[1..] + [d] + b;
      SplitFirstOfJoin(a[1..], d, b);
      assert [a[0]] + a[1..] == a;
    }
  }

  // ---------------------------------------------------------------------
  // The signed codec

  /** What the codec relies on: the shared secret, the keyed hash (blake2b
      keyed with the secret, as raw digest bytes) and the serializer pair
      (dill). The hash and the serializers are parameters: their internals
      are not modelled. */
  datatype Codec<!T> = Codec(
    secret: Bytes,
    mac: (Bytes, Bytes) -> Bytes,
    dumps: T -> Bytes,
    loads: Bytes -> Option<T>)

  /** The signature of a body: the lowercase hex digest of the keyed hash. */
  function Signature<T>(c: Codec<T>, body: Bytes): (sig: Bytes)
    ensures PIPE !in sig && IsAscii(sig)
    ensures |sig| == 2 * |c.mac(c.secret, body)|
  {
    HexDigest(c.mac(c.secret, body))
  }

  /** `job_serializer`: signature, `|`, then the serialized job unchanged.
      Splitting the result on its first `|` gives back exactly the
      signature and the body. */
  function Serialize<T>(c: Codec<T>, job: T): (packed: Bytes)
    ensures SplitFirst(packed, PIPE) == Some((Signature(c, c.dumps(job)), c.dumps(job)))
  {
    var body := c.dumps(job);
    var sig := Signature(c, body);
    SplitFirstOfJoin(sig, PIPE, body);
    sig + [PIPE] + body
  }

  /** Why `job_deserializer` can refuse a payload. */
  datatype CodecError =
    | MissingDelimiter      // no `|`: the two-way unpacking raises ValueError
    | UndecodableSignature  // non-ASCII signature: decoding or compare_digest raises
    | InvalidSignature      // the "Invalid job signature!" ValueError
    | LoadFailed            // dill could not load the body

  /** `job_deserializer`: split on the first `|`, recompute the signature
      over the body and compare; load the body only when they agree. */
  function Deserialize<T>(c: Codec<T>, packed: Bytes): (r: Result<T, CodecError>)
    ensures PIPE !in packed <==> r == Err(MissingDelimiter)
    ensures r.Ok? ==> c.loads(SplitFirst(packed, PIPE).value.1) == Some(r.value)
  {
    match SplitFirst(packed, PIPE)
    case None => Err(MissingDelimiter)
    case Some(parts) =>
      var sig, body := parts.0, parts.1;
      if !IsAscii(sig) then Err(UndecodableSignature)
      else if sig != Signature(c, body) then Err(InvalidSignature)
      else match c.loads(body)
        case None => Err(LoadFailed)
        case Some(job) => Ok(job)
  }

  /** Round trip: a payload the codec signed is accepted and loads back to
      the job, provided the serializer pair round-trips on it. */
  lemma RoundTrip<T>(c: Codec<T>, job: T)
    requires c.loads(c.dumps(job)) == Some(job)
    ensures Deserialize(c, Serialize(c, job)) == Ok(job)
  {
  }

  /** Tamper detection: any signature other than the one computed over the
      body is refused before the body is loaded. */
  lemma TamperedSignatureRejected<T>(c: Codec<T>, sig: Bytes, body: Bytes)
    requires PIPE !in sig
    requires sig != Signature(c, body)
    ensures Deserialize(c, sig + [PIPE] + body)
         == if IsAscii(sig) then Err(InvalidSignature) else Err(UndecodableSignature)
  {
    SplitFirstOfJoin(sig, PIPE, body);
  }

  /** The keyed hash gives digests of one fixed length, as blake2b does
      for a given digest size. */
  ghost predicate MacLengthFixed<T>(c: Codec<T>) {
    forall a: Bytes, b: Bytes :: |c.mac(c.secret, a)| == |c.mac(c.secret, b)|
  }

  /** Changing any one byte of the signature half of a signed payload makes
      the payload refused, and its body is never loaded. Changing a byte
      to the delimiter itself moves the split point: the shortened
      signature is then too short to match, which relies on the digest
      length being fixed. */
  lemma SignatureByteChangeRejected<T>(c: Codec<T>, job: T, i: nat, v: byte)
    requires i < |Signature(c, c.dumps(job))|
    requires v != Signature(c, c.dumps(job))[i]
    requires v == PIPE ==> MacLengthFixed(c)
    ensures Deserialize(c, Serialize(c, job)[i := v]).Err?
    ensures Deserialize(c, Serialize(c, job)[i := v]).error != LoadFailed
  {
    var body := c.dumps(job);
    var sig := Signature(c, body);
    var forged := sig[i := v];
    assert Serialize(c, job)[i := v] == forged + [PIPE] + body;
    if v == PIPE {
      var head, tail := sig[..i], sig[i + 1..] + [PIPE] + body;
      assert forged + [PIPE] + body == head + [PIPE] + tail;
      assert PIPE !in head by {
        forall k | 0 <= k < |head| ensures head[k] != PIPE {
          assert head[k] == sig[k];
        }
      }
      SplitFirstOfJoin(head, PIPE, tail);
      assert |Signature(c, tail)| == |sig| by {
        assert |c.mac(c.secret, tail)| == |c.mac(c.secret, body)|;
      }
      assert IsAscii(head) by {
        forall k | 0 <= k < |head| ensures head[k] < 128 {
          assert head[k] == sig[k];
        }
      }
      assert head != Signature(c, tail);
    } else {
      assert forged[i] != sig[i];
      assert PIPE !in forged by {
        forall k | 0 <= k < |forged| ensures forged[k] != PIPE {
          if k != i { assert forged[k] == sig[k]; }
        }
      }
      TamperedSignatureRejected(c, forged, body);
    }
  }

  /** Authenticity: whatever is accepted is exactly a signature, `|`, and
      a body the signature was computed over. */
  lemma AcceptedIsSigned<T>(c: Codec<T>, packed: Bytes)
    requires Deserialize(c, packed).Ok?
    ensures var body := SplitFirst(packed, PIPE).value.1;
            packed == Signature(c, body) + [PIPE] + body
  {
  }

  // ---------------------------------------------------------------------
  // Executor bounds from the environment

  /** `int(os.getenv(NAME, 0)) or None`: an absent variable or a zero means
      no explicit bound; any other integer is kept as it is. */
  function WorkerBound(env: Option<int>): (bound: Option<int>)
    ensures bound.None? <==> env.None? || env == Some(0)
    ensures bound.Some? ==> bound == env
  {
    if env.None? || env.value == 0 then None else env
  }

  /** A bound the executor constructors accept: none, or positive. */
  predicate AcceptedBound(bound: Option<int>) {
    bound.None? || bound.value > 0
  }

  // ---------------------------------------------------------------------
  // Startup and shutdown hooks

  datatype HookError =
    | BadWorkerBound        // an executor constructor refused max_workers <= 0
    | ExecutorsMissing      // `ctx["_executors"]` raised KeyError
    | ExecutorsNotAMap      // `ctx["_executors"].values()` is not there

  /** A worker's context dict, which the hooks change in place. */
  class WorkerContext {
    var entries: Context

    constructor (entries: Context)
      ensures this.entries == entries
    {
      this.entries := entries;
    }

    /** The executors installed under "_executors", if any. */
    function Pools(): set<Executor>
      reads this
    {
      if EXECUTORS_KEY in entries && entries[EXECUTORS_KEY].ExecutorPools?
      then entries[EXECUTORS_KEY].pools.Values
      else {}
    }

    /** `on_startup`: installs a fresh thread pool for IO_BOUND and a fresh
        process pool for CPU_BOUND under "_executors", replacing any earlier
        entry there and leaving every other key as it was. */
    method OnStartup(maxThreadWorkers: Option<int>, maxProcessWorkers: Option<int>)
      returns (r: Result<(), HookError>)
      modifies this
      ensures r.Ok? <==> AcceptedBound(maxThreadWorkers) && AcceptedBound(maxProcessWorkers)
      ensures r.Err? ==> r.error == BadWorkerBound && entries == old(entries)
      ensures r.Ok? ==>
        && EXECUTORS_KEY in entries
        && entries[EXECUTORS_KEY].ExecutorPools?
        && entries - {EXECUTORS_KEY} == old(entries) - {EXECUTORS_KEY}
      ensures r.Ok? ==>
        var pools := entries[EXECUTORS_KEY].pools;
        && pools.Keys == {IoBound, CpuBound}
        && fresh(pools[IoBound]) && fresh(pools[CpuBound])
        && pools[IoBound].kind == ThreadPool && pools[IoBound].maxWorkers == maxThreadWorkers
        && pools[CpuBound].kind == ProcessPool && pools[CpuBound].maxWorkers == maxProcessWorkers
        && !pools[IoBound].isShutdown && !pools[CpuBound].isShutdown
    {
      if !AcceptedBound(maxThreadWorkers) || !AcceptedBound(maxProcessWorkers) {
        return Err(BadWorkerBound);
      }
      var io := new Executor(ThreadPool, maxThreadWorkers);
      var cpu := new Executor(ProcessPool, maxProcessWorkers);
      entries := entries[EXECUTORS_KEY := ExecutorPools(map[IoBound := io, CpuBound := cpu])];
      r := Ok(());
    }

    /** `on_shutdown`: shuts every installed executor down, then deletes
        "_executors", leaving every other key as it was. */
    method OnShutdown() returns (r: Result<(), HookError>)
      modifies this, Pools()
      ensures r.Ok? <==> old(EXECUTORS_KEY in entries && entries[EXECUTORS_KEY].ExecutorPools?)
      ensures r.Err? ==> entries == old(entries)
      ensures r.Err? ==> (r.error == ExecutorsMissing <==> old(EXECUTORS_KEY !in entries))
      ensures r.Ok? ==> entries == old(entries) - {EXECUTORS_KEY}
      ensures r.Ok? ==> forall e :: e in old(Pools()) ==> e.isShutdown
    {
      if EXECUTORS_KEY !in entries {
        return Err(ExecutorsMissing);
      }
      if !entries[EXECUTORS_KEY].ExecutorPools? {
        return Err(ExecutorsNotAMap);
      }
      var pools := entries[EXECUTORS_KEY].pools;
      var order := [IoBound, CpuBound];
      for i := 0 to |order|
        invariant entries == old(entries)
        invariant forall j :: 0 <= j < i && order[j] in pools ==> pools[order[j]].isShutdown
      {
        if order[i] in pools {
          pools[order[i]].Shutdown();
        }
      }
      forall e | e in pools.Values
        ensures e.isShutdown
      {
        var t :| t in pools && pools[t] == e;
        assert t == order[0] || t == order[1];
      }
      entries := entries - {EXECUTORS_KEY};
      r := Ok(());
    }
  }
}
