/** PatternStrategy: a holder for an interchangeable value generator. */
module Strategy {
  import opened Env

  datatype PatternStrategy = PatternStrategy(strategy: Generator)

  /** generatePattern(): makes exactly one generate() call, on the held strategy, and
      returns the value that call produced, unchanged. */
  method GeneratePattern(p: PatternStrategy, env: Environment) returns (r: real)
    modifies env`log
    ensures env.log == old(env.log) + [Generated(p.strategy, r)]
  {
    r := env.Generate(p.strategy);
  }
}
