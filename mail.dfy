/** The mail gateway as the services see it: `send(message)` either records the message in
    the outbox or fails with the delivery error the gateway currently answers with. */
module Mail {
  import opened Wrappers

  datatype Message = Message(to: string, from: string, subject: string, html: string)

  /** The messages sent so far, oldest first, and the delivery error (if any) of the gateway. */
  datatype Mailbox = Mailbox(outbox: seq<Message>, fault: Option<Error>)

  function Deliver(mb: Mailbox, m: Message): (r: (Result<()>, Mailbox))
    ensures mb.fault.Some? ==> r == (Failure(mb.fault.value), mb)
    ensures mb.fault.None? ==> r == (Success(()), mb.(outbox := mb.outbox + [m]))
  {
    if mb.fault.Some? then (Failure(mb.fault.value), mb)
    else (Success(()), mb.(outbox := mb.outbox + [m]))
  }

  /** The body of both emails: a prompt and the link, once as target and once as text. */
  function LinkBody(prompt: string, link: string): string
  {
    "<p>" + prompt + "</p>\n<a href='" + link + "'>" + link + "</a>"
  }

  class Mailer {
    var outbox: seq<Message>
    var fault: Option<Error>

    function Model(): Mailbox
      reads this
    {
      Mailbox(outbox, fault)
    }

    constructor ()
      ensures Model() == Mailbox([], None)
    {
      outbox, fault := [], None;
    }

    method Send(m: Message) returns (r: Result<()>)
      modifies this
      ensures (r, Model()) == Deliver(old(Model()), m)
    {
      if fault.Some? {
        return Failure(fault.value);
      }
      outbox := outbox + [m];
      r := Success(());
    }
  }
}
