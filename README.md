# Notification senders built by factory method

A model of a small notification system built around the Factory Method
pattern. Four senders exist: email, SMS, push and WhatsApp. Each has its own
fields and defaults, and each has a `Send(message, subject)` that may update
its subject or title and then writes a few lines of text. Four stateless
factories each build one kind of sender bound to a recipient. A
`NotificationManager` keeps a registry from a case-insensitive channel key
(`email`, `sms`, `push`, `whatsapp`) to a factory. It resolves a key to a
fresh sender and drives three message templates: order confirmation,
shipping update and payment reminder.

Files:

- `wrappers.dfy`: `Option`, for a C# string that may be null, and `Result`, for a call that returns or throws.
- `text.dfy`: ASCII case folding, case-insensitive equality and substring containment.
- `senders.dfy`: the four sender classes and their abstract value `SenderState`. `Deliver` is the pure specification of `Send`, giving the new state and the lines written. `Sender` is the sender interface as a sum over the four classes.
- `factories.dfy`: the four factories and the value `Product` of the sender each builds.
- `manager.dfy`: the registry, `Lookup`/`Resolve` (the value-level `GetSender`), the error, the three templates, `Dispatch`, the `NotificationManager` class and the lemmas about them.

How the source's constructs are modelled:

- Console output is the sequence of lines each call returns.
- A thrown `ArgumentException` for an unknown key is `Err(UnsupportedChannel(key))`.
- `Subject` and `Title` start out null. They are `Option<string>`, and null prints as the empty string, as C# interpolation does.
- A `bool` prints as `True` or `False`, as C# interpolation does.
- The dictionary built with a case-insensitive comparer is a map whose keys are stored ASCII-folded. A lookup folds the query key first.
- The manager's `readonly` dictionary, filled in its constructor and never changed, is a `const` field initialised to `DefaultRegistry()`. No manager method can change it.

The message texts and subjects are the Portuguese ones the code writes (for
example the subject "Confirmação de Pedido"). A factory accepts any
recipient, including the empty string.

## Model

| member | source | states |
|---|---|---|
| `Text.Fold` | src/Challenge.cs:16 | folding keeps the length and leaves no ASCII capital; `EqualsIgnoreCaseIsCharwise` states what comparing folds means |
| `Text.EqualsIgnoreCase` | src/Challenge.cs:16 | the comparer is reflexive and only equates strings of the same length; its exact meaning is `EqualsIgnoreCaseIsCharwise` |
| `Text.EqualsIgnoreCaseIsCharwise` | src/Challenge.cs:16 | two keys are equal ignoring case exactly when they have the same length and, position by position, are the same character or the same ASCII letter in the other case |
| `Manager.DefaultRegistry` | src/Challenge.cs:14-23 | the registry holds exactly the keys `email`, `sms`, `push`, `whatsapp`, each stored in case-folded form |
| `Manager.NotificationManager.constructor` | src/Challenge.cs:14-23 | a new manager holds the default registry, in the `const` field nothing can change afterwards |
| `Manager.Lookup` | src/Challenge.cs:27 | a factory found is registered under a key equal to the query ignoring case, and an exact registered key finds its own factory; both directions are `LookupMatchesIgnoringCase` |
| `Manager.LookupMatchesIgnoringCase` | src/Challenge.cs:27 | a lookup succeeds exactly when some registered key equals the query ignoring case, and then yields that key's factory |
| `Manager.ResolveIgnoresCase` | src/Challenge.cs:27-29 | two keys equal ignoring case either both fail or resolve to the same sender |
| `Manager.Resolve` | src/Challenge.cs:25-31 | fails exactly when the lookup fails, with `UnsupportedChannel(key)`; otherwise the sender has the factory's channel and the given recipient. For the manager's registry see `ResolveDefault` |
| `Manager.ResolveDefault` | src/Challenge.cs:25-31 | with the manager's registry a key resolves exactly when it is one of the four channel names up to ASCII case (so `EMAIL` behaves like `email`). The result is a sender of that channel with the given recipient and that channel's defaults. Any other key fails with an error carrying the key, whose message contains it |
| `Manager.Error.Message` | src/Challenge.cs:31 | the exception text contains the offending key |
| `Manager.NotificationManager.GetSender` | src/Challenge.cs:25-32 | fails exactly when the value-level lookup fails, with that error and no sender. Otherwise it returns a newly allocated sender whose state is the matching factory's product |
| `Manager.OrderConfirmation` | src/Challenge.cs:37 | the message contains the order number and the subject is "Confirmação de Pedido" |
| `Manager.ShippingUpdate` | src/Challenge.cs:43 | the message contains the tracking code and the subject is "Pedido Enviado" |
| `Manager.PaymentReminder` | src/Challenge.cs:49 | the message contains the formatted amount and the subject is "Lembrete de Pagamento" |
| `Manager.NotificationManager.SendOrderConfirmation` | src/Challenge.cs:34-38 | the output (lines or error) is `Dispatch` of the key, the recipient and the order-confirmation notice, so it depends on the arguments alone |
| `Manager.NotificationManager.SendShippingUpdate` | src/Challenge.cs:40-44 | the output is `Dispatch` of the key, the recipient and the shipping-update notice |
| `Manager.NotificationManager.SendPaymentReminder` | src/Challenge.cs:46-50 | the output is `Dispatch` of the key, the recipient and the payment-reminder notice |
| `Manager.Dispatch` | src/Challenge.cs:34-50 | fails exactly when the lookup fails, with `UnsupportedChannel(key)`; otherwise writes at least two lines, the first the channel's header and the recipient. The full layout is `DispatchWrites` |
| `Manager.DispatchWrites` | src/Challenge.cs:34-50 | a template call fails exactly when its key does not resolve, with `UnsupportedChannel(key)`. Otherwise it writes 2 lines on SMS and 3 on the others: the channel header with the recipient, the message line in its channel's position, the subject on email or the title on push when the subject is non-empty, and `Template: True` on WhatsApp |
| `Manager.OrderConfirmationByEmail` | src/Challenge.cs:34-38 | an order confirmation sent with a key equal to `email` ignoring case writes the recipient line, the subject line "Confirmação de Pedido" and a message line containing the order number |
| `Manager.RegisterKeepsOtherChannels` | src/Challenge.cs:137-139 | registering a factory under a new key keeps the registry folded and makes the key resolvable ignoring case. Every key not equal to it ignoring case resolves as before |
| `Manager.DemoOrderConfirmationByEmail` | src/Challenge.cs:123 | the demonstration's email call writes the three expected lines |
| `Manager.DemoOrderConfirmationBySms` | src/Challenge.cs:127 | the demonstration's SMS call writes the two expected lines |
| `Manager.DemoShippingUpdateByPush` | src/Challenge.cs:131 | the demonstration's push call writes the three expected lines |
| `Manager.DemoPaymentReminderByWhatsApp` | src/Challenge.cs:135 | the demonstration's WhatsApp call writes the three expected lines, the last `Template: True` |
| `Manager.DemoUnregisteredChannel` | src/Challenge.cs:27-31 | `telegram` fails with `UnsupportedChannel("telegram")`, and `EMAIL` gives the same output as `email` |
| `Senders.Show` | src/Challenge.cs:65 | a string prints as itself, and prints empty exactly when it is null or empty (also line 95) |
| `Senders.ShowBool` | src/Challenge.cs:110 | `true` prints as `True` and `false` as `False` |
| `Senders.SenderState.Recipient` | src/ISender.cs:5 | the `Recipient` getter reads `Recipient` on email, `PhoneNumber` on SMS and WhatsApp, `DeviceToken` on push; see also `RecipientAliases` |
| `Senders.SenderState.WithRecipient` | src/ISender.cs:5 | setting `Recipient` keeps the sender's channel and writes exactly one field, leaving every other field as it was: `Recipient` on email, `PhoneNumber` on SMS and WhatsApp, `DeviceToken` on push (src/Challenge.cs:74, 86, 103) |
| `Senders.RecipientIsOneField` | src/ISender.cs:5 | `Recipient` behaves as one field on every sender. Reading after setting gives the value set. Setting the value read changes nothing. A second set overrides the first |
| `Senders.RecipientAliases` | src/Challenge.cs:72-103 | on SMS and WhatsApp `Recipient` reads and writes `PhoneNumber`; on push it reads and writes `DeviceToken` |
| `Senders.Initial` | src/Challenge.cs:54-104 | a newly initialised sender has the requested channel and the given recipient |
| `Senders.Updated` | src/Challenge.cs:60-97 | the update before writing keeps the channel and the recipient |
| `Senders.Render` | src/Challenge.cs:64-110 | a sender writes 2 lines on SMS and 3 otherwise; the first is the channel's header followed by the recipient |
| `Senders.Deliver` | src/Challenge.cs:60-111 | `Send` never changes the channel or the recipient |
| `Senders.SendUpdatesSubjectOnlyWhenNonEmpty` | src/Challenge.cs:60-97 | email takes a non-empty subject as `Subject`, and push takes it as `Title`. With an empty subject the previous value is kept. No other field changes |
| `Senders.SmsAndWhatsAppIgnoreSubject` | src/Challenge.cs:76-111 | on SMS and WhatsApp the subject has no effect on the output and no field changes |
| `Senders.SendLines` | src/Challenge.cs:64-110 | the exact layout of the output. Email: recipient, subject, message. SMS: recipient, message. Push: recipient, title, message. WhatsApp: recipient, message, `UseTemplate`. The subject or title line shows the value after the update |
| `Senders.SendTwiceIsIdempotent` | src/Challenge.cs:60-111 | a second identical `Send` writes the same lines and leaves the sender as the first left it |
| `Senders.EmailNotification.constructor` | src/Challenge.cs:56-58 | a new email sender has the recipient, no subject and `IsHtml` true |
| `Senders.EmailNotification.Send` | src/Challenge.cs:60-67 | only `Subject` may change. The new state and the lines are those `Deliver` gives for the old state |
| `Senders.SmsNotification.Recipient` | src/Challenge.cs:74 | the getter returns `PhoneNumber`, the recipient of the sender's abstract state |
| `Senders.SmsNotification.SetRecipient` | src/Challenge.cs:74 | setting `Recipient` sets `PhoneNumber`, and reading `Recipient` then returns it |
| `Senders.SmsNotification.constructor` | src/Challenge.cs:72 | a new SMS sender has the given phone number |
| `Senders.SmsNotification.Send` | src/Challenge.cs:76-80 | writes the header with `PhoneNumber` and the message line, exactly `Deliver`'s lines, and changes nothing |
| `Senders.PushNotification.Recipient` | src/Challenge.cs:86 | the getter returns `DeviceToken`, the recipient of the sender's abstract state |
| `Senders.PushNotification.SetRecipient` | src/Challenge.cs:86 | setting `Recipient` sets `DeviceToken`, and reading `Recipient` then returns it |
| `Senders.PushNotification.constructor` | src/Challenge.cs:85-88 | a new push sender has the device token, no title and badge 1 |
| `Senders.PushNotification.Send` | src/Challenge.cs:90-97 | only `Title` may change. The new state and the lines are those `Deliver` gives for the old state |
| `Senders.WhatsAppNotification.Recipient` | src/Challenge.cs:103 | the getter returns `PhoneNumber`, the recipient of the sender's abstract state |
| `Senders.WhatsAppNotification.SetRecipient` | src/Challenge.cs:103 | setting `Recipient` sets `PhoneNumber`, and reading `Recipient` then returns it |
| `Senders.WhatsAppNotification.constructor` | src/Challenge.cs:102-104 | a new WhatsApp sender has the phone number and `UseTemplate` true |
| `Senders.WhatsAppNotification.Send` | src/Challenge.cs:106-111 | writes the header, the message and `Template: True`/`False`, exactly `Deliver`'s lines, and changes nothing |
| `Senders.Sender.Recipient` | src/ISender.cs:5 | the interface's getter returns the recipient of the sender's abstract state |
| `Senders.Sender.SetRecipient` | src/ISender.cs:5 | the interface's setter changes the recipient field of the underlying sender and nothing else |
| `Senders.Sender.Send` | src/ISender.cs:6 | the interface's `Send` is the underlying sender's `Send`: new state and lines as `Deliver` gives |
| `Factories.Factory.Product` | src/ConcreteFactories.cs:7-34 | each factory's sender is of its own channel, with the recipient bound |
| `Factories.Factory.CreateNotification` | src/ConcreteFactories.cs:5-35 | returns a newly allocated sender whose state is the factory's product. It has no precondition and cannot fail |
| `Factories.ProductDefaults` | src/ConcreteFactories.cs:7-34 | email: recipient set, no subject, `IsHtml` true. SMS: `PhoneNumber` set. Push: `DeviceToken` set, no title, badge 1. WhatsApp: `PhoneNumber` set, `UseTemplate` true |
| `Factories.CreateTwiceIsIndependent` | src/ConcreteFactories.cs:5-35 | two calls with the same recipient give distinct objects with equal state. Changing the first leaves the second as created |

## Left out

- Console output: every `Console.WriteLine` becomes an element of the returned line sequence; nothing is written. The demonstration's banner and blank separator lines are not modelled.
- Case-insensitive comparison is modelled for ASCII letters only. Unicode case mapping of `OrdinalIgnoreCase` for other characters is not modelled; they compare exactly.
- `SendPaymentReminder`'s `{amount:N2}` culture-dependent decimal formatting is not modelled. The manager method takes the already formatted amount as a string; the demonstration lemma uses "150,00", the pt-BR rendering of 150.00.
- Null strings: recipients, keys, messages and subjects are never null in the model. So `IsNullOrEmpty` is a test for the empty string, and the `ArgumentNullException` a null key would raise is not modelled.
- `Senders.EmailNotification.constructor`, `Senders.SmsNotification.constructor`, `Senders.PushNotification.constructor`, `Senders.WhatsAppNotification.constructor`: the default constructor and the object initializer that follows it are folded into one constructor. The moment in between, when the recipient field is still null, is not modelled.
- The `ISender` interface and the abstract `NotificationFactory` are closed sums (`Sender`, `Factory`) because the model has no open extension. Adding a channel is represented only by `RegisterKeepsOtherChannels`, which is about the registry map.
- `Send`'s optional parameter `subject = ""` has no default in the model: a call `Send(message)` is `Send(message, "")`.
- `IsHtml` and `Badge` are kept as fields with their defaults, but no operation of the source reads them.
- `Program.Main` is represented only by the five `Demo…` lemmas; the process entry point itself is not modelled.
