/**
 Retrying a model load that ran out of memory with cheaper and cheaper
 configurations: which configurations there are, in which order they are tried,
 and why remembering the one that worked can only go on for a while.
 */
module LoadRobustness {
  import opened Wrappers

  type u32 = n: int | 0 <= n < 0x1_0000_0000

  datatype CtxLen = Auto | Fixed(n: u32)

  datatype GpuLayers = All | Count(n: u32)

  /** Engine parameters; `other` holds the further overrides that are set. */
  datatype EngineParams = EngineParams(
    ctxLen: CtxLen, gpuLayers: GpuLayers, threads: u32,
    offloadKqv: Option<bool>, other: map<string, string>)

  const DEFAULT_PARAMS: EngineParams := EngineParams(Auto, Count(0), 0, None, map[])

  /** The parameters of one load as the node takes them. */
  datatype NodeParams = NodeParams(
    id: string, ctxLen: Option<u32>, gpuLayers: Option<GpuLayers>, threads: Option<u32>,
    params: Option<EngineParams>)

  // ---- Failure classes --------------------------------------------------------

  function LowerChar(c: char): char {
    if 'A' <= c <= 'Z' then c - 'A' + 'a' else c
  }

  function Lower(s: string): string {
    seq(|s|, i requires 0 <= i < |s| => LowerChar(s[i]))
  }

  predicate Occurs(s: string, part: string, at: nat) {
    at + |part| <= |s| && s[at..at + |part|] == part
  }

  predicate Contains(s: string, part: string) {
    exists at :: 0 <= at <= |s| && Occurs(s, part, at)
  }

  const SIGNATURES: seq<string> := [
    "out of memory", "failed to allocate", "unable to allocate", "cannot allocate",
    "insufficient memory", "not enough memory", "cudamalloc failed", "cuda error: out of memory",
    "mtlbuffer", "ggml_backend_alloc", "buffer allocation failed", "alloc_tensor_range"]

  predicate IsOomReason(reason: string) {
    exists i :: 0 <= i < |SIGNATURES| && Contains(Lower(reason), SIGNATURES[i])
  }

  datatype LoadError =
    | EngineLoadFailed(reason: string)
    | WorkerRpc(message: string, code: Option<string>)
    | LoadOomExhausted(attempts: nat, last: string)
    | OtherError(detail: string)

  /** The reason of an out-of-memory failure, reported by the engine or relayed by a worker. */
  function OomReason(e: LoadError): Option<string> {
    match e
    case EngineLoadFailed(reason) => if IsOomReason(reason) then Some(reason) else None
    case WorkerRpc(message, Some(code)) => if code == "HG004" && IsOomReason(message) then Some(message) else None
    case _ => None
  }

  /** `c` reads as `low`: it is `low`, or the capital of it. */
  predicate ReadsAs(c: char, low: char) {
    (c == low && !('A' <= c <= 'Z')) || ('A' <= c <= 'Z' && low == c - 'A' + 'a')
  }

  predicate MentionsAt(text: string, phrase: string, at: nat) {
    at + |phrase| <= |text| && forall k :: 0 <= k < |phrase| ==> ReadsAs(text[at + k], phrase[k])
  }

  /** The text has the phrase somewhere, in whatever letters. */
  predicate Mentions(text: string, phrase: string) {
    exists at :: 0 <= at <= |text| && MentionsAt(text, phrase, at)
  }

  /** What a failure says. */
  function Told(e: LoadError): string {
    match e
    case EngineLoadFailed(reason) => reason
    case WorkerRpc(message, _) => message
    case LoadOomExhausted(_, last) => last
    case OtherError(detail) => detail
  }

  /** A failure that cheaper parameters may cure: the engine's own, or a worker's under the engine's code, that speaks of memory. */
  predicate RanOut(e: LoadError) {
    && (e.EngineLoadFailed? || (e.WorkerRpc? && e.code == Some("HG004")))
    && exists i :: 0 <= i < |SIGNATURES| && Mentions(Told(e), SIGNATURES[i])
  }

  lemma OccursIsMention(text: string, phrase: string, at: nat)
    ensures Occurs(Lower(text), phrase, at) <==> MentionsAt(text, phrase, at)
  {
    if at + |phrase| <= |text| {
      var part := Lower(text)[at..at + |phrase|];
      assert forall k :: 0 <= k < |phrase| ==> part[k] == LowerChar(text[at + k]);
      if MentionsAt(text, phrase, at) {
        assert forall k :: 0 <= k < |phrase| ==> part[k] == phrase[k];
      } else {
        var k :| 0 <= k < |phrase| && !ReadsAs(text[at + k], phrase[k]);
        assert part[k] != phrase[k];
      }
    }
  }

  lemma ContainsIsMention(text: string, phrase: string)
    ensures Contains(Lower(text), phrase) <==> Mentions(text, phrase)
  {
    hide Occurs, MentionsAt;
    forall at | 0 <= at <= |text| ensures Occurs(Lower(text), phrase, at) <==> MentionsAt(text, phrase, at) {
      OccursIsMention(text, phrase, at);
    }
  }

  /** Which failures go on to the next rung, and the reason they are remembered by. */
  lemma OomReasonExactly(e: LoadError)
    ensures OomReason(e) == if RanOut(e) then Some(Told(e)) else None
    ensures (e.EngineLoadFailed? || (e.WorkerRpc? && e.code == Some("HG004"))) && Mentions(Told(e), "out of memory") ==> RanOut(e)
  {
    hide Contains, Mentions, Lower;
    assert SIGNATURES[0] == "out of memory";
    forall i | 0 <= i < |SIGNATURES| ensures Contains(Lower(Told(e)), SIGNATURES[i]) <==> Mentions(Told(e), SIGNATURES[i]) {
      ContainsIsMention(Told(e), SIGNATURES[i]);
    }
  }

  // ---- The ladder -------------------------------------------------------------

  datatype Rung = Rung(params: NodeParams, what: string)

  const KV_MOVED := "moved the KV cache to system memory (offload_kqv=false)"
  const KV_MOVED_AND_HALVED := "moved the KV cache to system memory AND halved the GPU-offloaded layers"
  const KV_MOVED_AND_CPU := "moved the KV cache to system memory AND moved all layers to the CPU"
  const HALVED := "halved the GPU-offloaded layers (KV cache already in system memory)"
  const CPU := "moved all layers to the CPU (KV cache already in system memory)"

  function WithKvOff(p: NodeParams): NodeParams {
    var engine := match p.params case Some(e) => e case None => DEFAULT_PARAMS;
    p.(params := Some(engine.(offloadKqv := Some(false))))
  }

  function CurrentLayers(p: NodeParams): Option<GpuLayers> {
    match p.gpuLayers
    case Some(g) => Some(g)
    case None => if p.params.Some? then Some(p.params.value.gpuLayers) else None
  }

  function ReduceGpuLayers(p: NodeParams, layerCount: Option<u32>, kvMoved: bool): Option<Rung> {
    var halved := if kvMoved then KV_MOVED_AND_HALVED else HALVED;
    match CurrentLayers(p)
    case Some(Count(n)) =>
      if n >= 2 then Some(Rung(p.(gpuLayers := Some(Count(n / 2))), halved)) else None
    case Some(All) =>
      if layerCount.Some? && layerCount.value >= 2
      then Some(Rung(p.(gpuLayers := Some(Count(layerCount.value / 2))), halved))
      else Some(Rung(p.(gpuLayers := Some(Count(0))), if kvMoved then KV_MOVED_AND_CPU else CPU))
    case None => None
  }

  function OomLadder(base: NodeParams, layerCount: Option<u32>): seq<Rung> {
    var kvOff := WithKvOff(base);
    var kvMoved := base.gpuLayers != Some(Count(0)) && kvOff != base;
    [Rung(base, "")]
    + (if kvMoved then [Rung(kvOff, KV_MOVED)] else [])
    + (match ReduceGpuLayers(kvOff, layerCount, kvMoved) case Some(rung) => [rung] case None => [])
  }

  /**
   What a walk over `rungs` may do: `used` lists the parameters of every load that was made, in
   order, and `outcomes(i)` is what load number `i` does. The clauses fix the result for every
   behaviour of the loads.
   */
  predicate IsWalk(np: NodeParams, rungs: seq<Rung>, outcomes: nat -> Result<(), LoadError>,
                   r: Result<NodeParams, LoadError>, used: seq<NodeParams>)
  {
    && 1 <= |used| <= 1 + |rungs|
    && used[0] == np
    && (forall i :: 1 <= i < |used| ==> used[i] == rungs[i - 1].params)
    && (forall i :: 0 <= i < |used| - 1 ==> outcomes(i).Err? && RanOut(outcomes(i).error))
    && (match outcomes(|used| - 1)
        case Ok(_) => r == Ok(used[|used| - 1])
        case Err(e) =>
          if RanOut(e)
          then |used| == 1 + |rungs| && r == Err(LoadOomExhausted(|used|, Told(e)))
          else r == Err(e))
  }

  lemma LadderIsShort(base: NodeParams, layerCount: Option<u32>)
    ensures 1 <= |OomLadder(base, layerCount)| <= 3
  {
  }

  method RunOomLadder(np: NodeParams, layerCount: Option<u32>, outcomes: nat -> Result<(), LoadError>)
    returns (r: Result<NodeParams, LoadError>, used: seq<NodeParams>)
    ensures |used| <= 4 && IsWalk(np, OomLadder(np, layerCount), outcomes, r, used)
  {
    hide OomReason, RanOut, Told, OomLadder;
    forall i: nat | outcomes(i).Err?
      ensures OomReason(outcomes(i).error) == if RanOut(outcomes(i).error) then Some(Told(outcomes(i).error)) else None
    {
      OomReasonExactly(outcomes(i).error);
    }
    LadderIsShort(np, layerCount);
    used := [np];
    var last;
    match outcomes(0) {
      case Ok(_) => return Ok(np), used;
      case Err(e) =>
        match OomReason(e) {
          case Some(reason) => last := reason;
          case None => return Err(e), used;
        }
    }
    var rungs := OomLadder(np, layerCount);
    for i := 0 to |rungs|
      invariant |used| == i + 1 && used[0] == np
      invariant forall j :: 1 <= j < |used| ==> used[j] == rungs[j - 1].params
      invariant forall j :: 0 <= j <= i ==> outcomes(j).Err? && RanOut(outcomes(j).error)
      invariant outcomes(i).Err? && Told(outcomes(i).error) == last
    {
      used := used + [rungs[i].params];
      match outcomes(i + 1) {
        case Ok(_) => return Ok(rungs[i].params), used;
        case Err(e) =>
          match OomReason(e) {
            case Some(reason) => last := reason;
            case None => return Err(e), used;
          }
      }
    }
    r := Err(LoadOomExhausted(|rungs| + 1, last));
  }

  // ---- What the rungs are -----------------------------------------------------

  predicate KvOnGpu(p: NodeParams) {
    !(p.params.Some? && p.params.value.offloadKqv == Some(false))
  }

  /** The parts of a load that no rung may touch. */
  predicate SameRequest(a: NodeParams, b: NodeParams) {
    && a.id == b.id && a.ctxLen == b.ctxLen && a.threads == b.threads
    && (var x := match a.params case Some(e) => e case None => DEFAULT_PARAMS;
        var y := match b.params case Some(e) => e case None => DEFAULT_PARAMS;
        x.(offloadKqv := None) == y.(offloadKqv := None))
  }

  /** Fewer layers on the GPU; all of them is more than any count. */
  predicate FewerLayers(a: Option<GpuLayers>, b: Option<GpuLayers>) {
    match (a, b)
    case (Some(Count(_)), Some(All)) => true
    case (Some(Count(m)), Some(Count(n))) => m < n
    case _ => false
  }

  predicate ClaimsKvMoved(what: string) {
    what in {KV_MOVED, KV_MOVED_AND_HALVED, KV_MOVED_AND_CPU}
  }

  predicate ClaimsLayersMoved(what: string) {
    what in {KV_MOVED_AND_HALVED, KV_MOVED_AND_CPU, HALVED, CPU}
  }

  /**
   Every rung is honest and worth trying: it keeps everything but the KV placement and the layers,
   it names exactly what it changed, and no rung after the first repeats an earlier one.
   */
  lemma RungsAreHonest(base: NodeParams, layerCount: Option<u32>, i: nat)
    requires i < |OomLadder(base, layerCount)|
    ensures var rungs := OomLadder(base, layerCount);
      && rungs[0] == Rung(base, "")
      && SameRequest(base, rungs[i].params)
      && (ClaimsKvMoved(rungs[i].what) <==> KvOnGpu(base) && !KvOnGpu(rungs[i].params))
      && (ClaimsLayersMoved(rungs[i].what) <==>
          FewerLayers(rungs[i].params.gpuLayers, CurrentLayers(WithKvOff(base))) && rungs[i].params != base)
      && (i > 0 ==> !KvOnGpu(rungs[i].params))
      && (forall j :: 0 <= j < i ==> rungs[j].params != rungs[i].params)
  {
  }

  /**
   And the ladder is complete: a KV cache that is on the GPU beside layers there is moved, and layers that can be
   fewer are halved, from the number of layers the model has when all of them were asked for.
   */
  lemma LadderIsComplete(base: NodeParams, layerCount: Option<u32>)
    ensures var rungs := OomLadder(base, layerCount);
      var moves := if KvOnGpu(base) && base.gpuLayers != Some(Count(0)) then 1 else 0;
      && (moves == 1 ==> |rungs| > 1 && !KvOnGpu(rungs[1].params) && rungs[1].params.gpuLayers == base.gpuLayers)
      && (match CurrentLayers(base)
          case Some(Count(n)) =>
            if n < 2 then |rungs| == 1 + moves
            else
              && |rungs| == 2 + moves && rungs[1 + moves].params.gpuLayers == Some(Count(n / 2))
              && rungs[1 + moves].what == (if moves == 1 then KV_MOVED_AND_HALVED else HALVED)
          case Some(All) =>
            var n := if layerCount.Some? then layerCount.value else 0;
            && |rungs| == 2 + moves && rungs[1 + moves].params.gpuLayers == Some(Count(n / 2))
            && rungs[1 + moves].what ==
                 if moves == 1 then if n < 2 then KV_MOVED_AND_CPU else KV_MOVED_AND_HALVED
                 else if n < 2 then CPU else HALVED
          case None => |rungs| == 1 + moves)
  {
  }

  // ---- Degrading and remembering ----------------------------------------------

  function Fixing(n: Option<u32>): CtxLen {
    match n
    case Some(k) => if k == 0 then Auto else Fixed(k)
    case None => Auto
  }

  /** The profile that is saved after a load with `np`. */
  function Effective(np: NodeParams): EngineParams {
    var engine := match np.params case Some(e) => e case None => DEFAULT_PARAMS;
    engine.(ctxLen := Fixing(np.ctxLen),
            gpuLayers := if np.gpuLayers.Some? then np.gpuLayers.value else Count(0),
            threads := if np.threads.Some? then np.threads.value else 0)
  }

  predicate HasOverrides(p: EngineParams) {
    p.offloadKqv.Some? || p.other != map[]
  }

  /** The load that a saved profile asks for. */
  function Requested(id: string, p: EngineParams): NodeParams {
    NodeParams(id,
               match p.ctxLen case Auto => None case Fixed(n) => Some(n),
               Some(p.gpuLayers),
               Some(p.threads),
               if HasOverrides(p) then Some(p) else None)
  }

  /** The further overrides that a request carries. */
  function Overrides(np: NodeParams): (Option<bool>, map<string, string>) {
    match np.params
    case Some(e) => (e.offloadKqv, e.other)
    case None => (None, map[])
  }

  /** The number of times `n` can be halved before it is at most one. */
  function Halvings(n: nat): nat {
    if n < 2 then 0 else 1 + Halvings(n / 2)
  }

  function Pow2(k: nat): nat {
    if k == 0 then 1 else 2 * Pow2(k - 1)
  }

  lemma {:induction false} HalvingsBound(n: nat, k: nat)
    requires n < Pow2(k + 1)
    ensures Halvings(n) <= k
  {
    if n >= 2 {
      HalvingsBound(n / 2, k - 1);
    }
  }

  lemma U32Halvings(n: u32)
    ensures Halvings(n) <= 31
  {
    assert Pow2(8) == 256;
    assert Pow2(16) == 0x1_0000;
    assert Pow2(24) == 0x100_0000;
    assert Pow2(32) == 0x1_0000_0000;
    HalvingsBound(n, 31);
  }

  function LayerRank(g: Option<GpuLayers>): nat {
    match g
    case Some(All) => 32
    case Some(Count(n)) => Halvings(n)
    case None => 0
  }

  /** How much there is left to give up: KV on the GPU, and layers that can be halved. */
  function Rank(p: NodeParams): nat {
    (if KvOnGpu(p) then 1 else 0) + LayerRank(CurrentLayers(p))
  }

  lemma HalvedRank(n: u32)
    ensures Halvings(n / 2) <= Halvings(n) && (n >= 2 ==> Halvings(n / 2) < Halvings(n))
  {
  }

  /** Every rung but the plain retry gives something up. */
  lemma RungRanksLower(base: NodeParams, layerCount: Option<u32>, i: nat)
    requires 0 < i < |OomLadder(base, layerCount)|
    ensures Rank(OomLadder(base, layerCount)[i].params) < Rank(base)
  {
    match CurrentLayers(base) {
      case Some(Count(n)) => HalvedRank(n);
      case Some(All) =>
        if layerCount.Some? {
          U32Halvings(layerCount.value / 2);
        }
      case None =>
    }
  }

  /**
   Saving a configuration and asking for it again keeps its effect and never raises its rank: context, threads and
   overrides come back, and with its layers given, those and the rank.
   */
  lemma RememberingKeepsRank(np: NodeParams)
    ensures var again := Requested(np.id, Effective(np));
      && Rank(again) <= Rank(np) && Effective(again) == Effective(np)
      && (np.gpuLayers.Some? ==> Rank(again) == Rank(np) && again.gpuLayers == np.gpuLayers)
      && again.id == np.id && again.threads == Some(if np.threads.Some? then np.threads.value else 0)
      && again.ctxLen == (if np.ctxLen == Some(0) then None else np.ctxLen)
      && Overrides(again) == Overrides(np)
  {
  }

  /** `b` is the next request after `a` degraded to one of its rungs and that was saved. */
  predicate Degrades(a: NodeParams, b: NodeParams, layerCount: Option<u32>) {
    exists i :: 0 < i < |OomLadder(a, layerCount)| && b == Requested(a.id, Effective(OomLadder(a, layerCount)[i].params))
  }

  ghost predicate Linked(a: NodeParams, b: NodeParams) {
    exists layerCount: Option<u32> :: Degrades(a, b, layerCount)
  }

  /** A walk that ended on other parameters than it was asked for degraded, and saving those is a link of the chain. */
  lemma DegradedWalkIsLinked(np: NodeParams, layerCount: Option<u32>, outcomes: nat -> Result<(), LoadError>,
                             loaded: NodeParams, used: seq<NodeParams>)
    requires IsWalk(np, OomLadder(np, layerCount), outcomes, Ok(loaded), used) && loaded != np
    ensures Linked(np, Requested(np.id, Effective(loaded)))
  {
    hide OomReason;
    var i := |used| - 2;
    assert loaded == used[|used| - 1];
    assert i >= 0 && loaded == OomLadder(np, layerCount)[i].params;
    assert OomLadder(np, layerCount)[0].params == np;
    assert Degrades(np, Requested(np.id, Effective(loaded)), layerCount);
  }

  ghost predicate IsDegradeChain(chain: seq<NodeParams>) {
    forall k :: 0 < k < |chain| ==> Linked(chain[k - 1], chain[k])
  }

  lemma DegradeRanksLower(a: NodeParams, b: NodeParams, layerCount: Option<u32>)
    requires Degrades(a, b, layerCount)
    ensures Rank(b) < Rank(a)
  {
    var i :| 0 < i < |OomLadder(a, layerCount)| && b == Requested(a.id, Effective(OomLadder(a, layerCount)[i].params));
    RungRanksLower(a, layerCount, i);
    RememberingKeepsRank(OomLadder(a, layerCount)[i].params);
  }

  lemma {:induction false} ChainRanks(chain: seq<NodeParams>)
    requires chain != [] && IsDegradeChain(chain)
    ensures Rank(chain[|chain| - 1]) + |chain| <= Rank(chain[0]) + 1
  {
    if |chain| > 1 {
      var front := chain[..|chain| - 1];
      forall k | 0 < k < |front| ensures Linked(front[k - 1], front[k]) {
        assert Linked(chain[k - 1], chain[k]);
      }
      ChainRanks(front);
      assert Linked(chain[|chain| - 2], chain[|chain| - 1]);
      var c :| Degrades(chain[|chain| - 2], chain[|chain| - 1], c);
      DegradeRanksLower(chain[|chain| - 2], chain[|chain| - 1], c);
    }
  }

  /**
   Degrading and remembering comes to an end: a request can be replaced by a degraded one at
   most 33 times in a row, whatever layer counts the scans report on the way.
   */
  lemma DegradingTerminates(chain: seq<NodeParams>)
    requires chain != [] && IsDegradeChain(chain)
    ensures |chain| <= 34
  {
    ChainRanks(chain);
    match CurrentLayers(chain[0])
    case Some(Count(n)) => U32Halvings(n);
    case _ =>
  }
}
