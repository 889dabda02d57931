/** The guards of the configuration on which other proofs rest. */
module Config {
  import opened Types
  import opened Window

  /** The environment after its fields were read as numbers. */
  datatype Env = Env(routing: RoutingConfig, maxDeliveries: int, claimMinIdleMs: int, processedTtlSeconds: int)

  const WEIGHT_TOLERANCE := 0.000000001

  function Abs(x: real): real {
    if x < 0.0 then -x else x
  }

  /** Every integer field must be positive. The real-valued fields have no range of their own. */
  predicate FieldsPositive(env: Env) {
    && env.routing.windowMs > 0 && env.routing.bucketMs > 0 && env.routing.maxSamplesPerBucket > 0
    && env.routing.minSamples > 0 && env.routing.latencyCeilingMs > 0
    && env.routing.breaker.openMs > 0 && env.routing.breaker.probesToClose > 0
    && env.maxDeliveries > 0 && env.claimMinIdleMs > 0 && env.processedTtlSeconds > 0
  }

  function LoadConfig(env: Env): Result<Env> {
    var r := env.routing;
    var total := r.weights.success + r.weights.latency + r.weights.cost;
    if !FieldsPositive(env) then Failure("invalid configuration")
    else if Abs(total - 1.0) > WEIGHT_TOLERANCE then Failure("the routing weights must add to 1.0")
    else if r.bucketMs > r.windowMs then Failure("BUCKET_MS must not be larger than WINDOW_MS")
    else if r.explorationRate < 0.0 || r.explorationRate >= 1.0 then
      Failure("EXPLORATION_RATE must be from 0 up to but not including 1")
    else Success(env)
  }

  /** What a loaded configuration guarantees to the rest of the service. */
  lemma LoadedIsUsable(env: Env)
    requires LoadConfig(env).Success?
    ensures GeometryOf(env.routing).Valid()
    ensures 0.0 <= env.routing.explorationRate < 1.0
    ensures env.routing.minSamples > 0 && env.routing.breaker.openMs > 0 && env.routing.breaker.probesToClose > 0
    ensures env.maxDeliveries > 0 && env.claimMinIdleMs > 0
    ensures GeometryOf(env.routing).SpanMs() < 2 * env.routing.windowMs <= GeometryOf(env.routing).TtlMs()
  {
    SpanFitsTtl(GeometryOf(env.routing));
  }

  /** Exactly which configurations load, and that loading changes no number. */
  lemma LoadsExactly(env: Env)
    ensures
      var r, w := env.routing, env.routing.weights;
      LoadConfig(env).Success? <==>
        && r.windowMs > 0 && r.bucketMs > 0 && r.maxSamplesPerBucket > 0 && r.minSamples > 0 && r.latencyCeilingMs > 0
        && r.breaker.openMs > 0 && r.breaker.probesToClose > 0
        && env.maxDeliveries > 0 && env.claimMinIdleMs > 0 && env.processedTtlSeconds > 0
        && 1.0 - 0.000000001 <= w.success + w.latency + w.cost <= 1.0 + 0.000000001
        && r.bucketMs <= r.windowMs && 0.0 <= r.explorationRate < 1.0
    ensures LoadConfig(env).Success? ==> LoadConfig(env).value == env
  {
  }
}
