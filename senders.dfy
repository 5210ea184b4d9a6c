/**
 * The four notification senders (email, SMS, push, WhatsApp) and the
 * uniform sender interface they share: a `Recipient` accessor and a
 * `Send(message, subject)` operation.
 *
 * Each sender is a class whose fields the source updates in place.  Its
 * abstract value is a `SenderState`, and every `Send` is proved against the
 * pure function `Deliver`, which gives the new state and the console lines
 * the call emits.  A C# string field that starts out null (`Subject`,
 * `Title`) is an `Option<string>`; interpolating null prints nothing.
 */
module Senders {
  import opened Wrappers

  /** The four channels, one per sender variant. */
  datatype Channel = Email | Sms | Push | WhatsApp

  /** Interpolation of a string that may be null. */
  function Show(s: Option<string>): (t: string)
    ensures s.Some? ==> t == s.value
    ensures t == "" <==> s == None || s == Some("")
  {
    match s
    case None => ""
    case Some(t) => t
  }

  /** Interpolation of a C# `bool`. */
  function ShowBool(b: bool): (t: string)
    ensures b <==> t == "True"
    ensures !b <==> t == "False"
  {
    if b then "True" else "False"
  }

  // The fixed parts of the lines each sender writes.
  const EmailHeader := "📧 Enviando Email para "
  const SmsHeader := "📱 Enviando SMS para "
  const PushHeader := "🔔 Enviando Push para dispositivo "
  const WhatsAppHeader := "💬 Enviando WhatsApp para "
  const SubjectLabel := "   Assunto: "
  const TitleLabel := "   Título: "
  const MessageLabel := "   Mensagem: "
  const TemplateLabel := "   Template: "

  /** The start of the first line a sender of channel `c` writes, before the recipient. */
  function Header(c: Channel): string {
    match c
    case Email => EmailHeader
    case Sms => SmsHeader
    case Push => PushHeader
    case WhatsApp => WhatsAppHeader
  }

  /** The abstract value of a sender: its channel and its fields. */
  datatype SenderState =
    | EmailState(recipient: string, subject: Option<string>, isHtml: bool)
    | SmsState(phoneNumber: string)
    | PushState(deviceToken: string, title: Option<string>, badge: int)
    | WhatsAppState(phoneNumber: string, useTemplate: bool)
  {
    function Channel(): Channel {
      match this
      case EmailState(_, _, _) => Email
      case SmsState(_) => Sms
      case PushState(_, _, _) => Push
      case WhatsAppState(_, _) => WhatsApp
    }

    /** Reading `Recipient`: the stored field on email, the aliased field on the others. */
    function Recipient(): (r: string)
      ensures EmailState? ==> r == recipient
      ensures SmsState? || WhatsAppState? ==> r == phoneNumber
      ensures PushState? ==> r == deviceToken
    {
      match this
      case EmailState(r, _, _) => r
      case SmsState(p) => p
      case PushState(t, _, _) => t
      case WhatsAppState(p, _) => p
    }

    /** Setting `Recipient`: writes the field that `Recipient()` reads, and no other. */
    function WithRecipient(r: string): (s: SenderState)
      ensures s.Channel() == Channel()
      ensures EmailState? ==> s == this.(recipient := r)
      ensures SmsState? || WhatsAppState? ==> s == this.(phoneNumber := r)
      ensures PushState? ==> s == this.(deviceToken := r)
    {
      match this
      case EmailState(_, subj, html) => EmailState(r, subj, html)
      case SmsState(_) => SmsState(r)
      case PushState(_, t, b) => PushState(r, t, b)
      case WhatsAppState(_, u) => WhatsAppState(r, u)
    }
  }

  /**
   * A sender of channel `c` right after `new XNotification { ... = recipient }`:
   * the class's property defaults with the recipient field set.
   */
  function Initial(c: Channel, recipient: string): (s: SenderState)
    ensures s.Channel() == c && s.Recipient() == recipient
  {
    match c
    case Email => EmailState(recipient, None, true)
    case Sms => SmsState(recipient)
    case Push => PushState(recipient, None, 1)
    case WhatsApp => WhatsAppState(recipient, true)
  }

  /** What one `Send` call leaves behind: the sender's new state and the lines written. */
  datatype Delivery = Delivery(after: SenderState, lines: seq<string>)

  /** The field update `Send` performs before writing: email and push take a non-empty subject. */
  function Updated(s: SenderState, subject: string): (t: SenderState)
    ensures t.Channel() == s.Channel() && t.Recipient() == s.Recipient()
  {
    match s
    case EmailState(r, old_subject, html) =>
      EmailState(r, if subject != "" then Some(subject) else old_subject, html)
    case PushState(d, old_title, b) =>
      PushState(d, if subject != "" then Some(subject) else old_title, b)
    case _ => s
  }

  /** The lines a sender in state `s` writes for `message`. */
  function Render(s: SenderState, message: string): (lines: seq<string>)
    ensures |lines| == if s.SmsState? then 2 else 3
    ensures lines[0] == Header(s.Channel()) + s.Recipient()
  {
    match s
    case EmailState(r, subj, _) => [EmailHeader + r, SubjectLabel + Show(subj), MessageLabel + message]
    case SmsState(p) => [SmsHeader + p, MessageLabel + message]
    case PushState(d, t, _) => [PushHeader + d, TitleLabel + Show(t), MessageLabel + message]
    case WhatsAppState(p, u) => [WhatsAppHeader + p, MessageLabel + message, TemplateLabel + ShowBool(u)]
  }

  /** The specification of `Send`: update the subject or title, then write the lines. */
  function Deliver(s: SenderState, message: string, subject: string): (d: Delivery)
    ensures d.after.Channel() == s.Channel() && d.after.Recipient() == s.Recipient()
  {
    var t := Updated(s, subject);
    Delivery(t, Render(t, message))
  }

  /** `Recipient` behaves as a single field on every sender: get-set, set-get and set-set. */
  lemma RecipientIsOneField(s: SenderState, r: string, r': string)
    ensures s.WithRecipient(r).Recipient() == r
    ensures s.WithRecipient(s.Recipient()) == s
    ensures s.WithRecipient(r).WithRecipient(r') == s.WithRecipient(r')
  {
  }

  /** On SMS, push and WhatsApp, setting `Recipient` sets `PhoneNumber` or `DeviceToken`. */
  lemma RecipientAliases(s: SenderState, r: string)
    ensures s.SmsState? || s.WhatsAppState? ==> s.WithRecipient(r).phoneNumber == r
    ensures s.PushState? ==> s.WithRecipient(r).deviceToken == r
    ensures s.SmsState? || s.WhatsAppState? ==> s.Recipient() == s.phoneNumber
    ensures s.PushState? ==> s.Recipient() == s.deviceToken
  {
  }

  /**
   * Email and push keep their previous subject or title when `subject` is
   * empty and take `subject` otherwise; no other field changes.
   */
  lemma SendUpdatesSubjectOnlyWhenNonEmpty(s: SenderState, message: string, subject: string)
    ensures s.EmailState? ==>
      Deliver(s, message, subject).after == s.(subject := if subject == "" then s.subject else Some(subject))
    ensures s.PushState? ==>
      Deliver(s, message, subject).after == s.(title := if subject == "" then s.title else Some(subject))
    ensures subject == "" ==> Deliver(s, message, subject).after == s
  {
  }

  /** SMS and WhatsApp ignore `subject` altogether and change no field. */
  lemma SmsAndWhatsAppIgnoreSubject(s: SenderState, message: string, subject: string, subject': string)
    requires s.SmsState? || s.WhatsAppState?
    ensures Deliver(s, message, subject) == Deliver(s, message, subject')
    ensures Deliver(s, message, subject).after == s
  {
  }

  /**
   * The shape of the output: the recipient line first, the message line
   * (second on SMS and WhatsApp, last on email and push), the subject or
   * title after the update on email and push, `UseTemplate` last on WhatsApp.
   */
  lemma SendLines(s: SenderState, message: string, subject: string)
    ensures var d := Deliver(s, message, subject);
      && |d.lines| == (if s.SmsState? then 2 else 3)
      && d.lines[0] == Header(s.Channel()) + s.Recipient()
      && d.lines[if s.SmsState? || s.WhatsAppState? then 1 else 2] == MessageLabel + message
      && (s.EmailState? ==> d.lines[1] == SubjectLabel + Show(d.after.subject))
      && (s.PushState? ==> d.lines[1] == TitleLabel + Show(d.after.title))
      && (s.EmailState? && subject != "" ==> d.lines[1] == SubjectLabel + subject)
      && (s.PushState? && subject != "" ==> d.lines[1] == TitleLabel + subject)
      && (s.WhatsAppState? ==> d.lines[2] == TemplateLabel + ShowBool(s.useTemplate))
  {
  }

  /**
   * Sending the same message twice writes the same lines twice and leaves
   * the sender as the first call left it: no state accumulates across calls.
   */
  lemma SendTwiceIsIdempotent(s: SenderState, message: string, subject: string)
    ensures var d := Deliver(s, message, subject);
      Deliver(d.after, message, subject) == d
  {
  }

  class EmailNotification {
    var recipient: string
    var subject: Option<string>
    var isHtml: bool

    function State(): SenderState
      reads this
    {
      EmailState(recipient, subject, isHtml)
    }

    /** `new EmailNotification { Recipient = recipient }`. */
    constructor (recipient: string)
      ensures State() == Initial(Email, recipient)
    {
      this.recipient := recipient;
      subject := None;
      isHtml := true;
    }

    method Send(message: string, subject: string) returns (lines: seq<string>)
      modifies this`subject
      ensures State() == Deliver(old(State()), message, subject).after
      ensures lines == Deliver(old(State()), message, subject).lines
    {
      if subject != "" {
        this.subject := Some(subject);
      }
      lines := [EmailHeader + recipient];
      lines := lines + [SubjectLabel + Show(this.subject)];
      lines := lines + [MessageLabel + message];
    }
  }

  class SmsNotification {
    var phoneNumber: string

    function State(): SenderState
      reads this
    {
      SmsState(phoneNumber)
    }

    /** The `Recipient` getter: an alias for `PhoneNumber`. */
    function Recipient(): (r: string)
      reads this
      ensures r == phoneNumber && r == State().Recipient()
    {
      phoneNumber
    }

    /** The `Recipient` setter: writes `PhoneNumber`. */
    method SetRecipient(value: string)
      modifies this
      ensures phoneNumber == value && Recipient() == value
      ensures State() == old(State()).WithRecipient(value)
    {
      phoneNumber := value;
    }

    /** `new SmsNotification { PhoneNumber = phoneNumber }`. */
    constructor (phoneNumber: string)
      ensures State() == Initial(Sms, phoneNumber)
    {
      this.phoneNumber := phoneNumber;
    }

    /** Writes two lines; `subject` is ignored and no field changes. */
    method Send(message: string, subject: string) returns (lines: seq<string>)
      ensures lines == Deliver(State(), message, subject).lines
      ensures |lines| == 2 && lines[0] == SmsHeader + phoneNumber && lines[1] == MessageLabel + message
    {
      lines := [SmsHeader + phoneNumber];
      lines := lines + [MessageLabel + message];
    }
  }

  class PushNotification {
    var deviceToken: string
    var title: Option<string>
    var badge: int

    function State(): SenderState
      reads this
    {
      PushState(deviceToken, title, badge)
    }

    /** The `Recipient` getter: an alias for `DeviceToken`. */
    function Recipient(): (r: string)
      reads this
      ensures r == deviceToken && r == State().Recipient()
    {
      deviceToken
    }

    /** The `Recipient` setter: writes `DeviceToken`. */
    method SetRecipient(value: string)
      modifies this
      ensures deviceToken == value && Recipient() == value
      ensures State() == old(State()).WithRecipient(value)
    {
      deviceToken := value;
    }

    /** `new PushNotification { DeviceToken = deviceToken }`. */
    constructor (deviceToken: string)
      ensures State() == Initial(Push, deviceToken)
    {
      this.deviceToken := deviceToken;
      title := None;
      badge := 1;
    }

    method Send(message: string, subject: string) returns (lines: seq<string>)
      modifies this`title
      ensures State() == Deliver(old(State()), message, subject).after
      ensures lines == Deliver(old(State()), message, subject).lines
    {
      if subject != "" {
        title := Some(subject);
      }
      lines := [PushHeader + deviceToken];
      lines := lines + [TitleLabel + Show(title)];
      lines := lines + [MessageLabel + message];
    }
  }

  class WhatsAppNotification {
    var phoneNumber: string
    var useTemplate: bool

    function State(): SenderState
      reads this
    {
      WhatsAppState(phoneNumber, useTemplate)
    }

    /** The `Recipient` getter: an alias for `PhoneNumber`. */
    function Recipient(): (r: string)
      reads this
      ensures r == phoneNumber && r == State().Recipient()
    {
      phoneNumber
    }

    /** The `Recipient` setter: writes `PhoneNumber`. */
    method SetRecipient(value: string)
      modifies this
      ensures phoneNumber == value && Recipient() == value
      ensures State() == old(State()).WithRecipient(value)
    {
      phoneNumber := value;
    }

    /** `new WhatsAppNotification { PhoneNumber = phoneNumber }`. */
    constructor (phoneNumber: string)
      ensures State() == Initial(WhatsApp, phoneNumber)
    {
      this.phoneNumber := phoneNumber;
      useTemplate := true;
    }

    /** Writes three lines, the last showing `UseTemplate`; `subject` is ignored and no field changes. */
    method Send(message: string, subject: string) returns (lines: seq<string>)
      ensures lines == Deliver(State(), message, subject).lines
      ensures |lines| == 3 && lines[0] == WhatsAppHeader + phoneNumber
      ensures lines[1] == MessageLabel + message && lines[2] == TemplateLabel + ShowBool(useTemplate)
    {
      lines := [WhatsAppHeader + phoneNumber];
      lines := lines + [MessageLabel + message];
      lines := lines + [TemplateLabel + ShowBool(useTemplate)];
    }
  }

  /** The sender interface: one of the four sender objects. */
  datatype Sender =
    | EmailSender(email: EmailNotification)
    | SmsSender(sms: SmsNotification)
    | PushSender(push: PushNotification)
    | WhatsAppSender(whatsApp: WhatsAppNotification)
  {
    /** The object behind the interface. */
    function Object(): object {
      match this
      case EmailSender(e) => e
      case SmsSender(s) => s
      case PushSender(p) => p
      case WhatsAppSender(w) => w
    }

    function State(): SenderState
      reads Object()
    {
      match this
      case EmailSender(e) => e.State()
      case SmsSender(s) => s.State()
      case PushSender(p) => p.State()
      case WhatsAppSender(w) => w.State()
    }

    /** The interface's `Recipient` getter. */
    function Recipient(): (r: string)
      reads Object()
      ensures r == State().Recipient()
    {
      match this
      case EmailSender(e) => e.recipient
      case SmsSender(s) => s.Recipient()
      case PushSender(p) => p.Recipient()
      case WhatsAppSender(w) => w.Recipient()
    }

    /** The interface's `Recipient` setter. */
    method SetRecipient(value: string)
      modifies Object()
      ensures State() == old(State()).WithRecipient(value)
    {
      match this
      case EmailSender(e) => e.recipient := value;
      case SmsSender(s) => s.SetRecipient(value);
      case PushSender(p) => p.SetRecipient(value);
      case WhatsAppSender(w) => w.SetRecipient(value);
    }

    /** The interface's `Send`, dispatched to the sender's own. */
    method Send(message: string, subject: string) returns (lines: seq<string>)
      modifies Object()
      ensures State() == Deliver(old(State()), message, subject).after
      ensures lines == Deliver(old(State()), message, subject).lines
    {
      match this
      case EmailSender(e) => lines := e.Send(message, subject);
      case SmsSender(s) => lines := s.Send(message, subject);
      case PushSender(p) => lines := p.Send(message, subject);
      case WhatsAppSender(w) => lines := w.Send(message, subject);
    }
  }
}
