/**
 * The notification manager: a registry from case-insensitive channel key
 * to factory, the lookup that turns a key and a recipient into a sender,
 * and the three message templates that drive a sender.
 *
 * The registry is a map keyed by case-folded strings; looking a key up folds
 * it first, which is what a dictionary built with a case-insensitive
 * comparer does.  An unknown key is an `UnsupportedChannel` error instead of
 * a thrown exception.
 */
module Manager {
  import opened Wrappers
  import opened Text
  import opened Senders
  import opened Factories

  type Registry = map<string, Factory>

  /** Every key is stored in its case-folded form. */
  predicate Canonical(m: Registry) {
    forall k :: k in m ==> Fold(k) == k
  }

  /** The registered keys, and the demonstration's unregistered one, are already folded. */
  lemma KeysFolded()
    ensures Fold("email") == "email" && Fold("sms") == "sms"
    ensures Fold("push") == "push" && Fold("whatsapp") == "whatsapp"
    ensures Fold("telegram") == "telegram"
  {
    FoldFixesNonUpper("email");
    FoldFixesNonUpper("sms");
    FoldFixesNonUpper("push");
    FoldFixesNonUpper("whatsapp");
    FoldFixesNonUpper("telegram");
  }

  /** The four channels the manager's constructor registers. */
  function DefaultRegistry(): (m: Registry)
    ensures Canonical(m)
    ensures m.Keys == {"email", "sms", "push", "whatsapp"}
  {
    KeysFolded();
    map["email" := EmailFactory, "sms" := SmsFactory, "push" := PushFactory, "whatsapp" := WhatsAppFactory]
  }

  /** `TryGetValue` on a dictionary that compares keys ignoring case. */
  function Lookup(m: Registry, key: string): (r: Option<Factory>)
    requires Canonical(m)
    ensures r.Some? ==> exists k :: k in m && EqualsIgnoreCase(k, key) && r.value == m[k]
    ensures key in m ==> r == Some(m[key])
  {
    FoldIdempotent(key);
    if Fold(key) in m then Some(m[Fold(key)]) else None
  }

  /** The single error: a key with no registered factory. */
  datatype Error = UnsupportedChannel(key: string)
  {
    /** The text of the `ArgumentException` the source throws. */
    function Message(): (msg: string)
      ensures Contains(msg, key)
    {
      ContainsMiddle("Tipo de notificação '", key, "' não suportado");
      "Tipo de notificação '" + key + "' não suportado"
    }
  }

  /** The value-level `GetSender`: the sender the matching factory builds, or the error. */
  function Resolve(m: Registry, key: string, recipient: string): (r: Result<SenderState, Error>)
    requires Canonical(m)
    ensures r.Err? <==> Lookup(m, key).None?
    ensures r.Err? ==> r.error == UnsupportedChannel(key)
    ensures r.Ok? ==> r.value.Recipient() == recipient && r.value.Channel() == Lookup(m, key).value.Channel()
  {
    match Lookup(m, key)
    case None => Err(UnsupportedChannel(key))
    case Some(f) => Ok(f.Product(recipient))
  }

  /** A message and the subject (or title) it is sent with. */
  datatype Notice = Notice(message: string, subject: string)

  function OrderConfirmation(orderNumber: string): (n: Notice)
    ensures Contains(n.message, orderNumber)
    ensures n.subject == "Confirmação de Pedido"
  {
    ContainsMiddle("Seu pedido ", orderNumber, " foi confirmado!");
    Notice("Seu pedido " + orderNumber + " foi confirmado!", "Confirmação de Pedido")
  }

  function ShippingUpdate(trackingCode: string): (n: Notice)
    ensures Contains(n.message, trackingCode)
    ensures n.subject == "Pedido Enviado"
  {
    var pre := "Seu pedido foi enviado! Código de rastreamento: ";
    assert OccursAt(pre + trackingCode, trackingCode, |pre|);
    Notice("Seu pedido foi enviado! Código de rastreamento: " + trackingCode, "Pedido Enviado")
  }

  /** `formattedAmount` stands for the amount already formatted with two decimals. */
  function PaymentReminder(formattedAmount: string): (n: Notice)
    ensures Contains(n.message, formattedAmount)
    ensures n.subject == "Lembrete de Pagamento"
  {
    var pre := "Você tem um pagamento pendente de R$ ";
    assert OccursAt(pre + formattedAmount, formattedAmount, |pre|);
    Notice("Você tem um pagamento pendente de R$ " + formattedAmount, "Lembrete de Pagamento")
  }

  /** The lines a template method writes, or the error it throws. */
  function Dispatch(m: Registry, key: string, recipient: string, n: Notice): (r: Result<seq<string>, Error>)
    requires Canonical(m)
    ensures r.Err? <==> Lookup(m, key).None?
    ensures r.Err? ==> r.error == UnsupportedChannel(key)
    ensures r.Ok? ==> |r.value| >= 2 && r.value[0] == Header(Lookup(m, key).value.Channel()) + recipient
  {
    match Resolve(m, key, recipient)
    case Err(e) => Err(e)
    case Ok(s) => Ok(Deliver(s, n.message, n.subject).lines)
  }

  class NotificationManager {
    /** Filled once, when the manager is built, and never changed afterwards. */
    const factories: Registry := DefaultRegistry()

    constructor ()
      ensures factories == DefaultRegistry()
    {
    }

    method GetSender(notificationType: string, recipient: string) returns (r: Result<Sender, Error>)
      ensures r.Err? ==> Resolve(factories, notificationType, recipient) == Err(r.error)
      ensures r.Ok? ==> fresh(r.value.Object()) && Resolve(factories, notificationType, recipient) == Ok(r.value.State())
    {
      var found := Lookup(factories, notificationType);
      if found.Some? {
        var sender := found.value.CreateNotification(recipient);
        r := Ok(sender);
      } else {
        r := Err(UnsupportedChannel(notificationType));
      }
    }

    method SendOrderConfirmation(recipient: string, orderNumber: string, notificationType: string)
      returns (r: Result<seq<string>, Error>)
      ensures r == Dispatch(factories, notificationType, recipient, OrderConfirmation(orderNumber))
    {
      var sender := GetSender(notificationType, recipient);
      if sender.Err? {
        return Err(sender.error);
      }
      var n := OrderConfirmation(orderNumber);
      var lines := sender.value.Send(n.message, n.subject);
      r := Ok(lines);
    }

    method SendShippingUpdate(recipient: string, trackingCode: string, notificationType: string)
      returns (r: Result<seq<string>, Error>)
      ensures r == Dispatch(factories, notificationType, recipient, ShippingUpdate(trackingCode))
    {
      var sender := GetSender(notificationType, recipient);
      if sender.Err? {
        return Err(sender.error);
      }
      var n := ShippingUpdate(trackingCode);
      var lines := sender.value.Send(n.message, n.subject);
      r := Ok(lines);
    }

    method SendPaymentReminder(recipient: string, formattedAmount: string, notificationType: string)
      returns (r: Result<seq<string>, Error>)
      ensures r == Dispatch(factories, notificationType, recipient, PaymentReminder(formattedAmount))
    {
      var sender := GetSender(notificationType, recipient);
      if sender.Err? {
        return Err(sender.error);
      }
      var n := PaymentReminder(formattedAmount);
      var lines := sender.value.Send(n.message, n.subject);
      r := Ok(lines);
    }
  }

  /**
   * A lookup succeeds exactly when some registered key equals the query
   * ignoring case, and then yields that key's factory.
   */
  lemma LookupMatchesIgnoringCase(m: Registry, key: string)
    requires Canonical(m)
    ensures Lookup(m, key).Some? <==> exists k :: k in m && EqualsIgnoreCase(k, key)
    ensures forall k :: k in m && EqualsIgnoreCase(k, key) ==> Lookup(m, key) == Some(m[k])
  {
    FoldIdempotent(key);
    if Fold(key) in m {
      assert EqualsIgnoreCase(Fold(key), key);
    }
  }

  /** Keys that are equal ignoring case resolve to the same sender, or both fail. */
  lemma ResolveIgnoresCase(m: Registry, key: string, key': string, recipient: string)
    requires Canonical(m)
    requires EqualsIgnoreCase(key, key')
    ensures Resolve(m, key, recipient).Ok? == Resolve(m, key', recipient).Ok?
    ensures Resolve(m, key, recipient).Ok? ==> Resolve(m, key, recipient) == Resolve(m, key', recipient)
  {
  }

  /**
   * With the manager's registry, a key resolves exactly when it is `email`,
   * `sms`, `push` or `whatsapp` up to ASCII case, to a sender of that channel
   * whose `Recipient` is the given recipient; any other key fails with an
   * error that carries it and whose message names it.
   */
  lemma ResolveDefault(key: string, recipient: string)
    ensures var r := Resolve(DefaultRegistry(), key, recipient);
      && (r.Ok? <==> exists k :: k in {"email", "sms", "push", "whatsapp"} && EqualsIgnoreCase(k, key))
      && (r.Ok? ==> r.value.Recipient() == recipient)
      && (EqualsIgnoreCase("email", key) ==> r == Ok(EmailState(recipient, None, true)))
      && (EqualsIgnoreCase("sms", key) ==> r == Ok(SmsState(recipient)))
      && (EqualsIgnoreCase("push", key) ==> r == Ok(PushState(recipient, None, 1)))
      && (EqualsIgnoreCase("whatsapp", key) ==> r == Ok(WhatsAppState(recipient, true)))
      && (r.Err? ==> r.error == UnsupportedChannel(key) && Contains(r.error.Message(), key))
  {
    var m := DefaultRegistry();
    LookupMatchesIgnoringCase(m, key);
    KeysFolded();
  }

  /**
   * A template call fails exactly when resolving its key fails, with that
   * error; otherwise it writes the lines of a freshly built sender that is
   * sent the notice, so the message line carries the notice's text and, on
   * email and push, the second line carries its subject.
   */
  lemma DispatchWrites(m: Registry, key: string, recipient: string, n: Notice)
    requires Canonical(m)
    ensures var r := Dispatch(m, key, recipient, n);
      && (r.Err? <==> Resolve(m, key, recipient).Err?)
      && (r.Err? ==> r.error == UnsupportedChannel(key))
      && (r.Ok? ==> var c := Lookup(m, key).value.Channel();
           && |r.value| == (if c == Sms then 2 else 3)
           && r.value[0] == Header(c) + recipient
           && r.value[if c == Sms || c == WhatsApp then 1 else 2] == MessageLabel + n.message
           && (c == Email && n.subject != "" ==> r.value[1] == SubjectLabel + n.subject)
           && (c == Push && n.subject != "" ==> r.value[1] == TitleLabel + n.subject)
           && (c == WhatsApp ==> r.value[2] == TemplateLabel + "True"))
  {
    if Resolve(m, key, recipient).Ok? {
      var f := Lookup(m, key).value;
      SendLines(f.Product(recipient), n.message, n.subject);
    }
  }

  /**
   * The order confirmation on email: the recipient line, the subject
   * "Confirmação de Pedido" and a message line that contains the order number,
   * whatever the case of the key.
   */
  lemma OrderConfirmationByEmail(key: string, recipient: string, orderNumber: string)
    requires EqualsIgnoreCase(key, "email")
    ensures var r := Dispatch(DefaultRegistry(), key, recipient, OrderConfirmation(orderNumber));
      && r.Ok? && |r.value| == 3
      && r.value[0] == EmailHeader + recipient
      && r.value[1] == SubjectLabel + "Confirmação de Pedido"
      && Contains(r.value[2], orderNumber)
  {
    var m := DefaultRegistry();
    ResolveDefault(key, recipient);
    LookupMatchesIgnoringCase(m, key);
    assert "email" in m;
    DispatchWrites(m, key, recipient, OrderConfirmation(orderNumber));
    var msg := OrderConfirmation(orderNumber).message;
    var i :| 0 <= i <= |msg| && OccursAt(msg, orderNumber, i);
    assert OccursAt(MessageLabel + msg, orderNumber, |MessageLabel| + i);
  }

  /**
   * Registering a new key makes it resolvable ignoring case, and every key
   * that does not match it resolves exactly as before.
   */
  lemma RegisterKeepsOtherChannels(m: Registry, key: string, f: Factory, other: string)
    requires Canonical(m)
    ensures Canonical(m[Fold(key) := f])
    ensures Lookup(m[Fold(key) := f], key) == Some(f)
    ensures !EqualsIgnoreCase(other, key) ==> Lookup(m[Fold(key) := f], other) == Lookup(m, other)
  {
    FoldIdempotent(key);
  }

  // The demonstration run's four calls (one per channel) and an unregistered channel.

  lemma DemoOrderConfirmationByEmail()
    ensures Dispatch(DefaultRegistry(), "email", "cliente@email.com", OrderConfirmation("12345"))
         == Ok([EmailHeader + "cliente@email.com",
                SubjectLabel + "Confirmação de Pedido",
                MessageLabel + "Seu pedido 12345 foi confirmado!"])
  {
    KeysFolded();
    assert Lookup(DefaultRegistry(), "email") == Some(EmailFactory);
    assert "Seu pedido " + "12345" + " foi confirmado!" == "Seu pedido 12345 foi confirmado!";
  }

  lemma DemoOrderConfirmationBySms()
    ensures Dispatch(DefaultRegistry(), "sms", "+5511999999999", OrderConfirmation("12346"))
         == Ok([SmsHeader + "+5511999999999", MessageLabel + "Seu pedido 12346 foi confirmado!"])
  {
    KeysFolded();
    assert Lookup(DefaultRegistry(), "sms") == Some(SmsFactory);
    assert "Seu pedido " + "12346" + " foi confirmado!" == "Seu pedido 12346 foi confirmado!";
  }

  lemma DemoShippingUpdateByPush()
    ensures Dispatch(DefaultRegistry(), "push", "device-token-abc123", ShippingUpdate("BR123456789"))
         == Ok([PushHeader + "device-token-abc123",
                TitleLabel + "Pedido Enviado",
                MessageLabel + "Seu pedido foi enviado! Código de rastreamento: BR123456789"])
  {
    KeysFolded();
    assert Lookup(DefaultRegistry(), "push") == Some(PushFactory);
    assert "Seu pedido foi enviado! Código de rastreamento: " + "BR123456789"
        == "Seu pedido foi enviado! Código de rastreamento: BR123456789";
  }

  /** The amount 150.00 appears as its two-decimal formatting yields it under the pt-BR culture. */
  lemma DemoPaymentReminderByWhatsApp()
    ensures Dispatch(DefaultRegistry(), "whatsapp", "+5511888888888", PaymentReminder("150,00"))
         == Ok([WhatsAppHeader + "+5511888888888",
                MessageLabel + "Você tem um pagamento pendente de R$ 150,00",
                TemplateLabel + "True"])
  {
    KeysFolded();
    assert Lookup(DefaultRegistry(), "whatsapp") == Some(WhatsAppFactory);
    assert "Você tem um pagamento pendente de R$ " + "150,00" == "Você tem um pagamento pendente de R$ 150,00";
  }

  lemma DemoUnregisteredChannel()
    ensures Dispatch(DefaultRegistry(), "telegram", "x", OrderConfirmation("1")) == Err(UnsupportedChannel("telegram"))
    ensures Dispatch(DefaultRegistry(), "EMAIL", "x", OrderConfirmation("1"))
         == Dispatch(DefaultRegistry(), "email", "x", OrderConfirmation("1"))
  {
    KeysFolded();
    assert Fold("EMAIL") == "email";
  }
}
