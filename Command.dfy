/** UserActionCommand: a deferred call of a named, argument-less operation on a target. */
module Command {
  import opened Wrappers
  import opened Env

  /** An application object, given by its identity and the operations it has, by name. */
  datatype Target = Target(id: ObjectId, actions: map<string, OpId>)

  /** An immutable pairing of an action name with a target. */
  datatype UserActionCommand = UserActionCommand(action: string, target: Target)

  /** this.target[this.action]: the operation the name resolves to, or a TypeError when there is none. */
  function Resolve(c: UserActionCommand): Result<OpId>
  {
    if c.action in c.target.actions then Ok(c.target.actions[c.action]) else Err(MissingOperation(c.action))
  }

  /** The calls made by one execute(): exactly the named operation on the target, once. */
  function ExecuteTrace(c: UserActionCommand): (r: seq<Event>)
    ensures |r| <= 1
    ensures r != [] <==> c.action in c.target.actions
    ensures forall e :: e in r ==> e == Invoked(c.target.id, c.target.actions[c.action])
  {
    match Resolve(c)
    case Ok(op) => [Invoked(c.target.id, op)]
    case Err(_) => []
  }

  /** execute(): invokes the named operation on the target, or fails when the target lacks it. */
  method Execute(c: UserActionCommand, env: Environment) returns (r: Result<()>)
    modifies env`log
    ensures r.Ok? <==> c.action in c.target.actions
    ensures r.Err? ==> r.error == MissingOperation(c.action)
    ensures env.log == old(env.log) + ExecuteTrace(c)
  {
    var op :- Resolve(c);
    env.Invoke(c.target.id, op);
    r := Ok(());
  }
}
