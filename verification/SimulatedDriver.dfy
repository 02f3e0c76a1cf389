/** The in-memory hypervisor driver of one node: which instances it holds, and whether each is powered. */
module SimulatedDriver {
  import opened Wrappers

  datatype Power = On | Off

  type Table = map<string, Power>

  datatype DriverError = AlreadyExists | NotFound | AlreadyRunning | AlreadyStopped

  datatype Command =
    | CreateInstance(name: string, start: bool)
    | StartInstance(name: string)
    | StopInstance(name: string)
    | DeleteInstance(name: string)

  /** The table after a command, and the error the driver answers with. */
  function Execute(t: Table, c: Command): (Table, Option<DriverError>) {
    match c
    case CreateInstance(name, start) =>
      if name in t then (t, Some(AlreadyExists)) else (t[name := if start then On else Off], None)
    case StartInstance(name) =>
      if name !in t then (t, Some(NotFound))
      else if t[name] == On then (t, Some(AlreadyRunning))
      else (t[name := On], None)
    case StopInstance(name) =>
      if name !in t then (t, Some(NotFound))
      else if t[name] == Off then (t, Some(AlreadyStopped))
      else (t[name := Off], None)
    case DeleteInstance(name) =>
      if name !in t then (t, Some(NotFound)) else (t - {name}, None)
  }

  /** A rejected command changes nothing, no command touches another instance, and only delete loses one. */
  lemma ExecuteIsLocal(t: Table, c: Command)
    ensures var (t', e) := Execute(t, c);
            && (e.Some? ==> t' == t)
            && (forall n | n != c.name :: (n in t' <==> n in t) && (n in t ==> t'[n] == t[n]))
            && (c.name in t && c.name !in t' ==> c.DeleteInstance?)
            && (e.None? && c.CreateInstance? ==> c.name !in t && c.name in t')
  {
  }

  /**
   What a node runs afterwards, and why a command is refused: a create needs the name to be free, the others need it
   taken; a start needs the instance off and a stop needs it on.
   */
  lemma CommandOutcome(t: Table, name: string, start: bool)
    ensures var (u, e) := Execute(t, Command.CreateInstance(name, start));
            && (e == if name in t then Some(AlreadyExists) else None)
            && (name !in t ==> name in u && u[name] == if start then On else Off)
    ensures var (u, e) := Execute(t, Command.StartInstance(name));
            && (e == if name !in t then Some(NotFound) else if t[name].On? then Some(AlreadyRunning) else None)
            && (name in t ==> name in u && u[name].On?)
    ensures var (u, e) := Execute(t, Command.StopInstance(name));
            && (e == if name !in t then Some(NotFound) else if t[name].Off? then Some(AlreadyStopped) else None)
            && (name in t ==> name in u && u[name].Off?)
    ensures var (u, e) := Execute(t, Command.DeleteInstance(name));
            (e == if name !in t then Some(NotFound) else None) && name !in u
  {
  }

  class Driver {
    var instances: Table

    constructor ()
      ensures instances == map[]
    {
      instances := map[];
    }

    method CreateInstance(name: string, start: bool) returns (err: Option<DriverError>)
      modifies this
      ensures (instances, err) == Execute(old(instances), Command.CreateInstance(name, start))
    {
      if name in instances {
        return Some(AlreadyExists);
      }
      var initial := Off;
      if start {
        initial := On;
      }
      instances := instances[name := initial];
      err := None;
    }

    method StartInstance(name: string) returns (err: Option<DriverError>)
      modifies this
      ensures (instances, err) == Execute(old(instances), Command.StartInstance(name))
    {
      if name !in instances {
        return Some(NotFound);
      }
      if instances[name] == On {
        return Some(AlreadyRunning);
      }
      instances := instances[name := On];
      err := None;
    }

    method StopInstance(name: string) returns (err: Option<DriverError>)
      modifies this
      ensures (instances, err) == Execute(old(instances), Command.StopInstance(name))
    {
      if name !in instances {
        return Some(NotFound);
      }
      if instances[name] == Off {
        return Some(AlreadyStopped);
      }
      instances := instances[name := Off];
      err := None;
    }

    method DeleteInstance(name: string) returns (err: Option<DriverError>)
      modifies this
      ensures (instances, err) == Execute(old(instances), Command.DeleteInstance(name))
    {
      if name !in instances {
        return Some(NotFound);
      }
      instances := instances - {name};
      err := None;
    }

    /** The agent's dispatch of a typed command to the driver. */
    method Perform(c: Command) returns (err: Option<DriverError>)
      modifies this
      ensures (instances, err) == Execute(old(instances), c)
    {
      match c
      case CreateInstance(name, start) => err := CreateInstance(name, start);
      case StartInstance(name) => err := StartInstance(name);
      case StopInstance(name) => err := StopInstance(name);
      case DeleteInstance(name) => err := DeleteInstance(name);
    }
  }
}
