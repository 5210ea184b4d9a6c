/**
 * The four concrete factories.  A factory holds no state: each
 * `CreateNotification` builds a fresh sender of its channel with the
 * recipient bound and every other field at its default.
 */
module Factories {
  import opened Wrappers
  import opened Senders

  datatype Factory = EmailFactory | SmsFactory | PushFactory | WhatsAppFactory
  {
    function Channel(): Channel {
      match this
      case EmailFactory => Email
      case SmsFactory => Sms
      case PushFactory => Push
      case WhatsAppFactory => WhatsApp
    }

    /** The value of the sender `CreateNotification(recipient)` returns. */
    function Product(recipient: string): (s: SenderState)
      ensures s.Channel() == Channel() && s.Recipient() == recipient
    {
      Initial(Channel(), recipient)
    }

    /** Builds a new sender bound to `recipient`; accepts any string and never fails. */
    method CreateNotification(recipient: string) returns (sender: Sender)
      ensures fresh(sender.Object())
      ensures sender.State() == Product(recipient)
    {
      match this
      case EmailFactory =>
        var n := new EmailNotification(recipient);
        sender := EmailSender(n);
      case SmsFactory =>
        var n := new SmsNotification(recipient);
        sender := SmsSender(n);
      case PushFactory =>
        var n := new PushNotification(recipient);
        sender := PushSender(n);
      case WhatsAppFactory =>
        var n := new WhatsAppNotification(recipient);
        sender := WhatsAppSender(n);
    }
  }

  /**
   * What each factory leaves at its default: email is HTML with no subject,
   * push has badge 1 and no title, WhatsApp uses a template; the recipient
   * lands in `Recipient`, `PhoneNumber` or `DeviceToken`.
   */
  lemma ProductDefaults(f: Factory, recipient: string)
    ensures f.EmailFactory? ==> f.Product(recipient) == EmailState(recipient, None, true)
    ensures f.SmsFactory? ==> f.Product(recipient) == SmsState(recipient)
    ensures f.PushFactory? ==> f.Product(recipient) == PushState(recipient, None, 1)
    ensures f.WhatsAppFactory? ==> f.Product(recipient) == WhatsAppState(recipient, true)
  {
  }

  /**
   * Two calls with the same recipient give equal but separate senders:
   * changing the first leaves the second as it was created.
   */
  method CreateTwiceIsIndependent(f: Factory, recipient: string, other: string) returns (a: Sender, b: Sender)
    ensures a.Object() != b.Object()
    ensures a.State() == f.Product(recipient).WithRecipient(other)
    ensures b.State() == f.Product(recipient)
  {
    a := f.CreateNotification(recipient);
    b := f.CreateNotification(recipient);
    assert a.State() == b.State();
    a.SetRecipient(other);
  }
}
