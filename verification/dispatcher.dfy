/** The Dispatcher object of server/server.js:197-230, whose closure variables `queue` and
    `client` its methods update in place. Each method is tied to the value-level operation
    of the same name in module Mailbox. */
module Dispatch {
  import opened Wire
  import Mailbox

  datatype Side = MobileSide | DesktopSide

  /** Which registry slot a Dispatcher was created for: a session key, or `None` for the
      process-wide default pair. Only used to tell Dispatchers apart in proofs. */
  datatype Owner = Owner(key: Option<string>, side: Side)

  class Dispatcher {
    var queue: seq<Body>
    var client: Option<ConnId>
    ghost const owner: Owner

    /** The mailbox this Dispatcher currently holds. */
    function State(): Mailbox.Box
      reads this
    {
      Mailbox.Box(queue, client)
    }

    constructor (ghost owner: Owner)
      ensures State() == Mailbox.Idle && this.owner == owner
    {
      queue := [];
      client := None;
      this.owner := owner;
    }

    /** `process()`: deliver the oldest message if a client waits. */
    method Process() returns (sent: seq<Completion>)
      modifies this
      ensures Mailbox.Step(State(), sent) == Mailbox.Process(old(State()))
    {
      sent := [];
      if client.Some? && |queue| > 0 {
        var msg := queue[0];
        queue := queue[1..];
        sent := [Completion(client.value, Delivered(msg))];
        client := None;
      }
    }

    /** `setClient(c)`. */
    method SetClient(c: ConnId) returns (sent: seq<Completion>)
      modifies this
      ensures Mailbox.Settled(State())
      ensures Mailbox.Step(State(), sent) == Mailbox.SetClient(old(State()), c)
    {
      sent := End();
      client := Some(c);
      var delivered := Process();
      sent := sent + delivered;
    }

    /** `addMessage(m)`. */
    method AddMessage(m: Body) returns (sent: seq<Completion>)
      modifies this
      ensures Mailbox.Settled(State())
      ensures Mailbox.Step(State(), sent) == Mailbox.AddMessage(old(State()), m)
    {
      queue := queue + [m];
      sent := Process();
    }

    /** `end()`: the waiting client is completed but stays in the slot. */
    method End() returns (sent: seq<Completion>)
      ensures Mailbox.Step(State(), sent) == Mailbox.End(State())
    {
      sent := [];
      if client.Some? {
        sent := [Completion(client.value, EndedEmpty)];
      }
    }

    /** `clearMessages()`. */
    method ClearMessages()
      modifies this
      ensures Mailbox.Settled(State())
      ensures State() == Mailbox.ClearMessages(old(State()))
    {
      queue := [];
    }
  }
}
