/** How the client server reacts when a processing unit has been loaded. */
module Activations {
  /** The registered server: whether its endpoints have been set, and whether it has launched
      work threads. */
  datatype Registration = Unregistered | Registered(input: bool, output: bool, launched: bool)

  /** How a call ends; a crash is the end of the program. */
  datatype Ending = Succeeded | Threw | Crashed

  /** The callback for a module that asks for an input thread (`sync`), an output thread
      (`async`) or both, and the server afterwards.  A missing server or endpoint is an
      exception, possibly after the first thread has been launched.  The slots of the threads are
      filled from the first one on, and are never emptied: putting a thread over one that has
      not been joined ends the program. */
  function Notified(server: Registration, sync: bool, async: bool): (Ending, Registration) {
    if server.Unregistered? then (Threw, server)
    else if !sync && !async then (Succeeded, server)
    else if !(if sync then server.input else server.output) then (Threw, server)
    else if server.launched then (Crashed, server)
    else (if async && !server.output then Threw else Succeeded, server.(launched := true))
  }

  /** Each ending in terms of what is there and what is asked for. */
  lemma NotifiedIff(server: Registration, sync: bool, async: bool)
    ensures var (ending, after) := Notified(server, sync, async);
            && (ending == Threw <==>
                  server.Unregistered? || (sync && !server.input)
                  || (async && !server.output && !(sync && server.launched)))
            && (ending == Crashed <==>
                  server.Registered? && server.launched
                  && ((sync && server.input) || (!sync && async && server.output)))
            && (server.Registered? <==> after.Registered?)
            && (server.Registered? ==>
                  && after.input == server.input && after.output == server.output
                  && (after.launched <==>
                        server.launched || (sync && server.input) || (!sync && async && server.output)))
  {}
}
