# fanshub core in Dafny

fanshub is a Django site where creators publish free and paid posts and
subscribers pay a monthly price to see a creator's paid posts. Payments go
through Stripe. This project models the core of the site and proves
properties of the model:

- the account, subscription and content tables and their uniqueness rules
  (module `Db`, class `Database`);
- the subscription views of the `subscriptions/views/` package and of
  `subscriptions/views.py`. These cover subscribing (guards first, then the
  Stripe customer, product, price and subscription), checking a Stripe
  subscription's status, cancelling, the confirmation page and both Stripe
  webhooks;
- the saved payment methods, with at most one default card per user;
- the content views: the home feed, the paid-post access rule of
  `post_detail`, and `create_post` with its media formset;
- the forms, with Django's decimal field rules (`max_digits`,
  `decimal_places`) written out;
- the account views: profile, dashboard, a creator's public profile and
  `become_creator`, plus the login signal that creates a Stripe customer;
- the chat WebSocket consumer and the part of the channel layer it uses.

Stripe is an oracle here. Every reply Stripe could give is a parameter of
the operation, and each operation also returns the Stripe requests it made,
in order, as a `seq<Call>`. The current time is an `int` parameter `now`.
Primary keys come from one counter, `nextId`, shared by all tables.

Where a view changes the database it is a method on the `Database` object.
Its `modifies` clause names the tables it may touch. Its `ensures` clause
gives the new contents of those tables as functions of the old ones. The
decisions behind those contents (the subscribe guards, the status rules,
the form validations, the feed) are pure functions with their own
contracts, plus lemmas about them.

## Model

| member | source | states |
|---|---|---|
| Base.ParseId | content/consumers.py:64-66 | A string names an id exactly when it is a non-empty run of decimal digits. |
| Base.FileFieldError | accounts/forms.py:65-69 | forms.FileField rejects an upload iff it has no name or is empty, the missing name reported first. |
| Base.ParseIdOfNatToString | content/consumers.py:65 | Printing an id and reading it back gives the same id. |
| Money.ToCentsTruncates | subscriptions/views/subscriptions.py:169 | `int(price * 100)` truncates toward zero: it is within one cent of the exact amount, on the side of zero. |
| Money.ToCentsOfTwoPlaces | subscriptions/views/subscriptions.py:169 | A price with at most two decimal places converts to cents exactly. |
| Money.ToCentsOfCents | subscriptions/views/subscriptions.py:169 | A whole number of cents converts back to the same number. |
| Money.DecimalString | subscriptions/models.py:84-85 | How a Decimal prints: a sign only for negatives, at least one digit before the point, and exactly `places` digits after it. Read without the sign and the point, the digits spell the magnitude of the coefficient. |
| Money.DecimalFieldError | accounts/forms.py:59-64 | Django's decimal validation: a value passes iff it has at most `decimal_places` places and at most `max_digits - decimal_places` whole digits. A max_digits error means too many digits overall. |
| Money.MoneyFieldBound | content/forms.py:17-23 | With max_digits=10 and decimal_places=2, a value passes iff it has at most 2 places and its absolute value is below 10^8. |
| Users.ById | accounts/models.py:5-29 | A lookup by primary key finds the one row with that id, or reports that none exists. It never finds several. |
| Users.CreatorByUsername | accounts/views.py:129 | `get_object_or_404(User, username=, is_creator=True)`: it finds the creator with the name, or reports that none exists. |
| Users.ByUsername | subscriptions/views/subscriptions.py:42-43 | A lookup by the unique username. |
| Users.IndexOf | accounts/views.py:111 | The row of the signed-in user, who is known to exist. |
| Users.LookupById | content/consumers.py:65 | `User.objects.get(id=s)` for a string id: found iff the string is a number and a user has that id. |
| Users.EnsureId | subscriptions/views/subscriptions.py:133-146 | A blank Stripe id is requested from Stripe; the reply's id or error message is the result. An id that is present is kept. |
| Users.EnsureIdIdempotent | subscriptions/views/subscriptions.py:133-162 | After an id has been obtained once, a second pass keeps it and asks Stripe for nothing. |
| Users.SaveKeepsUsersValid | accounts/views.py:96-97 | Saving a row with the same id and username keeps ids and usernames unique, and keeps the same set of users. |
| SubscriptionModels.SubscriptionRow | subscriptions/models.py:19-23 | `active` and `auto_renew` default to true. The row has the given pair and `created_at == now`. |
| SubscriptionModels.CreateSubscription | subscriptions/models.py:5-32 | `Subscription.objects.create`. An unknown keyword fails with a TypeError. A missing `expires_at` or `price` breaks NOT NULL. A pair already present breaks `unique_together`. Otherwise exactly one row is appended. |
| SubscriptionModels.CreateKeepsValid | subscriptions/models.py:30 | A successful create keeps ids fresh and the (subscriber, creator) pair unique. |
| SubscriptionModels.SaveKeepsValid | subscriptions/models.py:30 | Saving a row with the same id and pair keeps the table valid. |
| SubscriptionModels.SubscriptionStr | subscriptions/models.py:26-27 | `__str__`: the subscriber's name, then the literal " subscribed to ", then the creator's name, each slice stated. |
| SubscriptionModels.ParsePaymentType | subscriptions/models.py:38-42 | Only the three stored codes parse, and each parses back to its own code. |
| SubscriptionModels.PaymentTypeCodeRoundTrip | subscriptions/models.py:38-42 | Every payment type's code parses back to that type. |
| SubscriptionModels.ParsePaymentStatus | subscriptions/models.py:44-49 | Only the four stored status codes parse. |
| SubscriptionModels.PaymentStatusCodeRoundTrip | subscriptions/models.py:44-49 | Every status's code parses back to that status. |
| SubscriptionModels.PaymentRow | subscriptions/models.py:61-66 | A payment's status defaults to pending; both timestamps are `now`. |
| SubscriptionModels.PaymentHistoryListing | subscriptions/models.py:87-88 | The default ordering: newest first, holding the same rows. |
| SubscriptionModels.PaymentHistoryStr | subscriptions/models.py:84-85 | `__str__`: type code, " payment of $", the amount as `DecimalString` prints it, " from ", user, " to ", recipient, each slice stated. |
| SubscriptionRules.ActiveLookup | subscriptions/views/subscriptions.py:219-223 | `get(subscriber, creator, active=True)`: with the pair unique it never finds several rows. It finds nothing iff there is no active subscription. |
| SubscriptionRules.SubscribeGuard | subscriptions/views/subscriptions.py:105-127 | The subscribe guards, in order: the creator does not exist, the creator is the user, the user is already subscribed. Each case holds iff its condition does. Proceed names a creator other than the user with no active subscription. |
| SubscriptionRules.Deactivate | subscriptions/views/subscriptions.py:229-230 | Cancelling switches off only that row, and the pair then has no active subscription. |
| SubscriptionRules.Stop | subscriptions/views.py:124-126 | Cancelling also stops renewal. Nothing else changes, and no active subscription remains. |
| SubscriptionRules.DeactivateKeepsValid | subscriptions/models.py:30 | Both kinds of cancellation keep the table valid. |
| SubscriptionRules.ResubscribeAfterCancelConflicts | subscriptions/models.py:30 | A cancelled row stays in the table, so creating a subscription for the same pair again breaks the unique constraint. |
| SubscriptionRules.DecideStatus | subscriptions/views/subscriptions.py:36-80 | "active" or "trialing" writes a row. "incomplete" is still processing. Any other status is reported as it is. |
| SubscriptionViews.ByStripeId | subscriptions/views/subscriptions.py:17-26 | `get(stripe_subscription_id=)` on a column that is not unique: found, none, or several rows. |
| SubscriptionViews.MetadataUsers | subscriptions/views/subscriptions.py:40-50 | Both users named in the Stripe metadata are found iff both keys are present, the creator's name exists and the subscriber id is a user's. |
| SubscriptionViews.CheckSubscription | subscriptions/views/subscriptions.py:12-99 | A local row answers without asking Stripe. Otherwise Stripe's status decides. Only an active or trialing subscription adds a row: active, renewing, at the creator's price, for thirty days, with each error path's status code. |
| SubscriptionViews.ProvisionAndSubscribe | subscriptions/views/subscriptions.py:129-210 | Customer, product and price are each created only when missing. Their requests carry the stated fields. Each id Stripe creates is written to its row at once: a created customer, product or price id is kept after any later failure, so a retry does not request it again. The checkout page appears iff every needed reply succeeded, and the last request is then the subscription. |
| SubscriptionViews.Subscribe | subscriptions/views/subscriptions.py:101-210 | A refused guard makes no Stripe request and writes nothing. Otherwise both user rows are saved with the ids obtained. |
| SubscriptionViews.CancelSubscription | subscriptions/views/subscriptions.py:212-243 | The row is switched off only after Stripe deleted the subscription. A failure reports Stripe's message and changes nothing. |
| SubscriptionViews.SubscriptionConfirmation | subscriptions/views/subscriptions.py:245-258 | A missing creator is a 404. The page shows an active subscription of the pair iff one exists. |
| SubscriptionViews.WebhookCreateAlwaysFails | subscriptions/views/subscriptions.py:297-302 | As written, the webhook's create fails on NOT NULL `expires_at` on every database state. |
| SubscriptionViews.WebhookArgs | subscriptions/views/subscriptions.py:297-302 | The corrected keywords: thirty days from now, at the creator's price. |
| SubscriptionViews.WebhookCreateSucceedsOnFreePair | subscriptions/views/subscriptions.py:297-302 | With the corrected keywords, the create succeeds iff the pair is free, and writes an active, renewing row. |
| SubscriptionViews.StripeWebhook | subscriptions/views/subscriptions.py:260-318 | A bad event is a 400. A succeeded payment intent creates the Stripe subscription, then the row; the row is built with the corrected keywords of the first finding (`WebhookArgs`), where the code as written always answers 500. A deleted subscription switches off its row. Missing metadata is a 500. Every other event is a 200 that changes nothing. |
| PaymentIntentViews.SubscribeWithIntent | subscriptions/views.py:19-54 | The same guards, with their redirects and no Stripe request. Then one payment intent for the creator's price in cents; the checkout page appears iff it was created. |
| PaymentIntentViews.GuardsPrecedeStripe | subscriptions/views.py:22-31 | Subscribing to oneself or to a creator one already follows makes no Stripe request. |
| PaymentIntentViews.IntentWebhookCreateAlwaysFails | subscriptions/views.py:84-93 | As written, the create passes `stripe_payment_id`, which the model lacks, so it always fails with an unexpected keyword. |
| PaymentIntentViews.IntentWebhookArgs | subscriptions/views.py:84-93 | The corrected keywords: active, renewing, thirty days, at the creator's price, with no unknown keyword. |
| PaymentIntentViews.IntentWebhookCreateSucceedsOnFreePair | subscriptions/views.py:84-93 | With the corrected keywords, the create succeeds iff the pair is free, and writes an active, renewing row for thirty days at the creator's price. |
| PaymentIntentViews.IntentPaymentRow | subscriptions/views.py:96-104 | The payment record: a subscription payment that succeeded, for the creator's price, linked to the new subscription and the intent. |
| PaymentIntentViews.StripeWebhookIntent | subscriptions/views.py:56-110 | A missing signature header is a 500. A bad event is a 400. A succeeded intent writes the subscription and then its payment, or neither, with a 500; the subscription is built with the corrected keywords of the second finding (`IntentWebhookArgs`), where the code as written always answers 500. Other events are a 200. |
| PaymentIntentViews.CancelSubscriptionIntent | subscriptions/views.py:112-133 | The active row stops and stops renewing. A redirect follows either way. |
| PaymentIntentViews.SubscriptionConfirmationIntent | subscriptions/views.py:135-154 | `.order_by('-created_at').first()`: the newest active subscription of the pair, or a redirect when there is none. |
| PaymentMethodModels.MakeDefault | subscriptions/views/payment_methods.py:71-73 | The chosen card becomes default and the owner's other cards do not. Other users' cards and every non-default field are unchanged. |
| PaymentMethodModels.AddMethod | subscriptions/views/payment_methods.py:32-40 | A new card is appended. If it is default, the owner's other cards stop being default. One default per user is kept. |
| PaymentMethodModels.MethodsOf | subscriptions/views/payment_methods.py:14 | Exactly the user's own cards. |
| PaymentMethodModels.OwnedLookup | subscriptions/views/payment_methods.py:66-69 | `get(id=, user=)`: a card is found only if it is the user's own. |
| PaymentMethodModels.RemoveAt | subscriptions/views/payment_methods.py:105 | Deleting removes exactly that card and keeps every other. |
| PaymentMethodModels.RemoveKeepsValid | subscriptions/views/payment_methods.py:105 | Deleting keeps ids unique and one default per user. |
| PaymentMethodModels.MakeDefaultKeepsValid | subscriptions/views/payment_methods.py:71-73 | Making a card default keeps ids unique and one default per user. |
| PaymentMethodModels.AddKeepsValid | subscriptions/views/payment_methods.py:32-40 | Adding a card keeps the table valid. |
| PaymentMethodViews.ParseMethodId | subscriptions/views/payment_methods.py:65-69 | A missing id, an id that is not a number, and a number are three distinct cases. |
| PaymentMethodViews.ListPaymentMethods | subscriptions/views/payment_methods.py:11-18 | The page lists exactly the user's own cards. |
| PaymentMethodViews.NewMethod | subscriptions/views/payment_methods.py:32-40 | The card carries Stripe's card details. It is default iff the user had no card yet. |
| PaymentMethodViews.SavePaymentMethod | subscriptions/views/payment_methods.py:20-58 | One retrieve request. A retrieved card is added; a Stripe error changes nothing. |
| PaymentMethodViews.SetDefaultPaymentMethod | subscriptions/views/payment_methods.py:60-88 | Only the user's own card can become default. A missing or foreign card is "not found", and a bad id is a failure. |
| PaymentMethodViews.SetDefaultLeavesOneDefault | subscriptions/views/payment_methods.py:71-73 | Afterwards the chosen card is the user's only default, and every other user's list is unchanged. |
| PaymentMethodViews.DeletePaymentMethod | subscriptions/views/payment_methods.py:90-119 | The card is detached at Stripe first. It is deleted only if the detach succeeded, and only if it is the user's own. |
| ChatModels.ChatRow | content/migrations/0006_chat_message.py:16-30 | A new chat is active, with both timestamps `now`. |
| ChatModels.CreateChat | content/migrations/0006_chat_message.py:28 | The create fails iff the (creator, subscriber) pair exists. Otherwise one row is appended and the table stays valid. |
| ChatModels.ReversedPairIsDistinct | content/migrations/0006_chat_message.py:28 | The constraint is on the ordered pair: on any table where neither order of two distinct users is taken, creating (A, B) and then (B, A) both succeed. |
| ChatModels.MessageRow | content/migrations/0006_chat_message.py:31-44 | A new message is unread, with its chat, sender, content and creation time. |
| ChatModels.MessagesOf | content/migrations/0006_chat_message.py:42 | A chat's messages in their default order, oldest first. |
| ChatModels.ChatListing | content/migrations/0006_chat_message.py:27 | Chats in their default order, most recently updated first. |
| ContentModels.ParseVisibility | content/models.py:40-45 | Only the four visibility codes parse. |
| ContentModels.VisibilityCodeRoundTrip | content/models.py:40-45 | Each visibility's code parses back to it. |
| ContentModels.ParseMediaType | content/models.py:80-83 | A media type parses iff it is "image" or "video". |
| ContentModels.ParseSharePlatform | content/models.py:134-139 | Only the four platform codes parse. |
| ContentModels.SharePlatformCodeRoundTrip | content/models.py:134-139 | Each platform's code parses back to it. |
| ContentModels.PostRow | content/models.py:36-66 | A new post is titled "Untitled Post", is public, and has both timestamps `now`. |
| ContentModels.PostStr | content/models.py:68-69 | `__str__`: the creator's name, "'s post: ", then the title. |
| ContentModels.CreateCategory | content/models.py:9 | A category name must be unique. |
| ContentModels.CreateTag | content/models.py:25 | A tag name must be unique. |
| ContentModels.CreateLike | content/models.py:126 | One like per user and post. |
| ContentModels.CreateSave | content/models.py:163 | One save per user and post. |
| ContentModels.NewestFirst | content/models.py:71-72 | The default post ordering: newest first, with the same posts. |
| ContentForms.CleanPost | content/forms.py:29-37 | A paid post needs a price greater than zero. Nothing else is checked. |
| ContentForms.ValidatePost | content/forms.py:17-37 | The form is valid iff the price passes its field check and a paid post has a positive price. A paid post without a price reports that error. |
| ContentForms.AttachedFiles | content/views.py:62-66 | The media forms saved: never more than the forms. |
| ContentForms.EmptyMediaFileInvalidates | content/forms.py:45-48 | A media form holding a nameless or empty file makes the formset invalid, so `create_post` saves nothing. |
| ContentForms.AttachedFilesCount | content/views.py:62-66 | All the forms are saved iff every form has a file, and none iff no form has one. |
| ContentForms.AttachedFilesExact | content/views.py:62-66 | Exactly the forms that carry a file are saved, each with its own file and type. |
| ContentViews.SubscribedCreators | content/views.py:17-19 | The creators the user actively subscribes to. |
| ContentViews.Featured | content/views.py:26-28 | At most five creators, and exactly min(5, number of creators) of them. |
| ContentViews.FeedOf | content/views.py:20-23 | The posts of the given creators, newest first. |
| ContentViews.Home | content/views.py:12-38 | Anonymous visitors get the landing page. A signed-in user gets a feed iff some post is by a creator they actively subscribe to; that feed holds exactly those posts, newest first. Otherwise featured creators are shown. |
| ContentViews.PostDetail | content/views.py:76-100 | A missing post is a 404. A free post is open to everyone. A paid post is open to its creator and to holders of an active subscription, and to no one else. |
| ContentViews.MediaRows | content/views.py:62-66 | One media row per attached file, in order, each belonging to the new post. |
| ContentViews.CreatedMediaExact | content/views.py:62-66 | Every media row written belongs to the new post and comes from a form with that file. Every form with a file is written. |
| ContentViews.CreatePost | content/views.py:45-74 | Only a creator may post. A post is created iff the form and formset are valid; then the post is saved, followed by its media in form order. Otherwise nothing is written. |
| ContentViews.SaveMediaForms | content/views.py:62-66 | The media loop appends exactly the rows of the forms with a file. |
| ContentAdmin.TextPreview | content/admin.py:15-16 | Text of 50 characters or fewer is shown whole. Longer text shows its first 50 characters and "...". The preview never exceeds 53 characters. |
| AccountForms.CleanSubscriptionPrice | accounts/forms.py:75-79 | Rejects a price iff it is negative, and returns any other price unchanged. |
| AccountForms.CleanVerificationDocument | accounts/forms.py:81-92 | `if document:` is false for an absent or nameless file, which is returned with no checks. Any other file over 5 MiB is rejected first; otherwise it passes iff its type is PDF, JPEG or PNG, and an accepted document is returned unchanged. |
| AccountForms.AcceptedDocumentIsReturned | accounts/forms.py:65-92 | Inside the form the checks always run: a document passes iff it is named, not empty, at most 5 MiB and of an allowed type, and its cleaned value is the upload itself. |
| AccountForms.SizeLimitIsInclusive | accounts/forms.py:85-86 | Exactly 5 MiB passes the size check, and one byte more does not. |
| AccountForms.PriceErrors | accounts/forms.py:59-79 | The price has no error iff it is present, passes the decimal rules and is not negative. |
| AccountForms.DocumentErrors | accounts/forms.py:65-92 | The document has no error iff it is present, has a name, is not empty and passes `clean_verification_document`. A nameless or empty file gets FileField's own error, before the clean method runs. |
| AccountForms.ValidateCreatorProfile | accounts/forms.py:52-92 | Valid iff the bio is non-empty, the price is present, well formed and not negative, and a named, non-empty document of allowed size and type is attached. An invalid form reports one to three errors. |
| AccountViews.PostsBy | accounts/views.py:49-50 | A creator's posts, newest first. |
| AccountViews.FreePostsBy | accounts/views.py:144-146 | A creator's free posts, newest first. |
| AccountViews.Profile | accounts/views.py:46-57 | The user's own posts, newest first, and their active subscriptions. |
| AccountViews.ActiveSubscriptionsTo | accounts/views.py:115-117 | The active subscriptions to a creator. |
| AccountViews.SubscribersOf | accounts/views.py:115-117 | The people with an active subscription to a creator. |
| AccountViews.CreatorDashboard | accounts/views.py:108-125 | A non-creator is refused. A creator sees their number of posts and of active subscriptions. |
| AccountViews.OneRowPerSubscriber | accounts/views.py:115-117 | Under the unique pair, the dashboard's subscription count equals the number of distinct subscribers. |
| AccountViews.CreatorProfile | accounts/views.py:127-153 | An unknown creator is a 404. `is_subscribed` holds iff the viewer is signed in and has an active subscription. The creator and subscribers see every post; others see only the free ones; newest first either way. |
| AccountViews.CreatorRow | accounts/views.py:94-97 | The saved row is a creator with the Stripe account, bio and price. Identity and the other Stripe ids are kept. |
| AccountViews.DocumentIsAlwaysMissing | accounts/views.py:80-81 | As written the form is bound without the uploaded files, and User has no document to offer as initial value, so every submission is refused with the document reported missing, whatever is uploaded. |
| AccountViews.BecomeCreator | accounts/views.py:72-106 | An existing creator changes nothing. A valid form, bound with the uploaded document, makes exactly one express account request in the US. The user becomes a creator only if it was created. |
| AccountSignals.ProvisionCustomer | accounts/signals.py:12-32 | There is a customer request iff the field exists and is blank. A created id is stored; a failure changes nothing. |
| AccountSignals.ProvisionIsIdempotent | accounts/signals.py:15-29 | After a successful first login, a later login makes no request. After a failed one it asks again. |
| AccountSignals.CreateStripeCustomer | accounts/signals.py:10-32 | The user's row becomes the provisioned row; no other row changes. |
| ChatConsumer.RoomName | content/consumers.py:14-15 | The group name is "chat_" followed by the chat id. |
| ChatConsumer.RoomNameInjective | content/consumers.py:14-15 | Different chat ids never share a group. |
| ChatConsumer.AddMember | content/consumers.py:18-21 | Joining adds the channel to that group only. |
| ChatConsumer.RemoveMember | content/consumers.py:27-30 | Leaving removes the channel from that group only. |
| ChatConsumer.JoinThenLeave | content/consumers.py:18-30 | Joining a group and then leaving it restores every group. |
| ChatConsumer.Deliver | content/consumers.py:41-49 | `group_send` appends the event to the queue of every member, and of no one else. |
| ChatConsumer.ChannelLayer.GroupAdd | content/consumers.py:18-21 | The layer's groups after `group_add`. |
| ChatConsumer.ChannelLayer.GroupDiscard | content/consumers.py:27-30 | The layer's groups after `group_discard`. |
| ChatConsumer.ChannelLayer.GroupSend | content/consumers.py:41-49 | The layer's queues after `group_send` to the group's members. |
| ChatConsumer.ChatByRouteId | content/consumers.py:66 | `Chat.objects.get(id=self.chat_id)`: found iff the id is a number and a chat has it. |
| ChatConsumer.ChatConsumer.Connect | content/consumers.py:13-23 | Records the chat id and room name, joins the room, then accepts. Nothing is checked first. |
| ChatConsumer.ChatConsumer.Disconnect | content/consumers.py:25-30 | Leaves the room; the other members stay. |
| ChatConsumer.ChatConsumer.Receive | content/consumers.py:32-49 | A frame is saved and published iff it is JSON with both keys, the user id names a user, and the route's chat exists. Then the message is stored as sent by that user, and the event goes to every room member with the sender's username. Otherwise nothing changes. |
| ChatConsumer.ChatConsumer.ChatMessage | content/consumers.py:51-61 | The event's message, user id and username are written to the socket unchanged. |
| ChatConsumer.SaveMessage | content/consumers.py:63-67 | One unread message is appended to the chat, from the sender. |
| ChatConsumer.SenderGetsEcho | content/consumers.py:13-49 | A connected sender's own channel gets its message back. |
| Db.Database.constructor | accounts/models.py:5-29 | An empty database is valid. |
| Db.Database.InsertSubscription | subscriptions/models.py:5-32 | The table becomes what `CreateSubscription` gives, or stays the same on an error. The database stays valid. |
| Db.Database.InsertPayment | subscriptions/views.py:96-104 | One payment row is appended. |
| Db.Database.InsertPaymentMethod | subscriptions/views/payment_methods.py:32-40 | The cards become what `AddMethod` gives. |
| Db.Database.MakeDefaultPaymentMethod | subscriptions/views/payment_methods.py:71-73 | The cards become what `MakeDefault` gives. |
| Db.Database.DeletePaymentMethod | subscriptions/views/payment_methods.py:105 | The cards become what `RemoveAt` gives. |
| Db.Database.DeactivateSubscription | subscriptions/views/subscriptions.py:229-230 | The table becomes what `Deactivate` gives. |
| Db.Database.StopSubscription | subscriptions/views.py:124-126 | The table becomes what `Stop` gives. |
| Db.Database.InsertPost | content/views.py:56-59 | One post by an existing user is appended. |
| Db.Database.InsertMedia | content/views.py:62-66 | One media row of an existing post is appended. |
| Db.Database.SaveUser | accounts/views.py:96-97 | One user row is replaced; the database stays valid. |

## Left out

- The async runtime of Channels, the WebSocket transport and concurrency. Each consumer call runs to completion before the next one starts.
- Stripe's own behaviour, including webhook signature verification: every reply is a parameter.
- Templates, flash messages, redirects' targets and the `login_required` redirect of anonymous users. Views behind `login_required` take the signed-in user's id.
- `order_by('?')` on the landing page picks creators at random. The model takes them in table order.
- The media formset's management form, its `can_delete` flag and `has_changed`. An extra form that was left empty is not validated, and a form whose file is absent is skipped.
- The media thumbnail field, profile pictures, cover photos and date of birth. They have no rule in the core.
- Decimal input parsing (exponents, signs, whitespace). A price arrives as a `Decimal(coefficient, places)`.
- `int()` on an id with a sign or surrounding whitespace. The model treats any string that is not a plain run of decimal digits as not a number.
- Field `choices` are not enforced by `objects.create`; the stored codes are modelled as strings only where a view writes them.
- `Post.is_paid` is not a model field in `content/models.py`. The model stores the form's `is_paid` on the post, since every view reads it there.
- `unique_together` on chats is an ordered pair, so the same two users can hold two chats (`ChatModels.ReversedPairIsDistinct`).
- All tables draw primary keys from one counter `nextId` instead of one sequence per table.
- The Stripe library's local argument checks.
- The `SavedPaymentMethod` model class is not part of this model's sources. Its fields are taken from how `subscriptions/views/payment_methods.py` uses it.
- `check_subscription`'s final "not found in Stripe" answer (subscriptions/views/subscriptions.py:95-99) cannot be reached: every path through the try block returns first.
- The chat consumer's `user_id` is kept as the string the client sent. A JSON number would print the same digits. A JSON `null` `user_id` finds no user, as the model's missing or unparsable id does; other JSON types (lists, objects, booleans) are not modelled.
- The chat `message` is modelled as a string. A JSON number, list or other non-string value would be stored through `str()` by the TextField and relayed unchanged to the group; the model does not represent such values.
- The creator form's bio is taken after Django's whitespace stripping.
- `verification_document` is added to users by accounts/migrations/0004_user_is_verified_user_verification_document.py:18-22 but is not a field of `User` in `accounts/models.py`. The ORM uses the model class, so it never loads or saves the document; the model's `User` has no document column.
- AccountViews.CreatorRow: the cleaned verification document is never persisted, because `User` has no such field; a creator row carries no document.
- AccountViews.BecomeCreator: the form is taken as bound with the uploaded document (the corrected binding of the accounts/views.py:80 finding). As written every submission is refused, as `AccountViews.DocumentIsAlwaysMissing` shows.
- SubscriptionViews.StripeWebhook: the payment_intent.succeeded branch runs the corrected create of the first finding (`WebhookArgs`). As written, that branch always ends in a 500 with no row, as `SubscriptionViews.WebhookCreateAlwaysFails` shows.
- PaymentIntentViews.StripeWebhookIntent: the payment_intent.succeeded branch runs the corrected create of the second finding (`IntentWebhookArgs`). As written, that branch always ends in a 500 with neither row, as `PaymentIntentViews.IntentWebhookCreateAlwaysFails` shows.
- `register`, `user_login`, `edit_profile` and `discover` render or wrap Django's authentication forms and have no rule of their own.

## Findings

| source | as written | input that shows it | evidently intended | confidence | as-written member | corrected member |
|---|---|---|---|---|---|---|
| subscriptions/views/subscriptions.py:297-302 | The payment_intent.succeeded branch calls `Subscription.objects.create` without `expires_at` and `price`, both NOT NULL with no default. | Any `payment_intent.succeeded` event whose metadata names two existing users. The Stripe subscription has already been created when the insert fails with an IntegrityError, so the answer is a 500. | Fill both columns as `check_subscription` does: thirty days from now, at the creator's price. | not executed; high | SubscriptionViews.WebhookCreateAlwaysFails | SubscriptionViews.WebhookCreateSucceedsOnFreePair |
| subscriptions/views.py:84-93 | The create passes `stripe_payment_id=`, which `Subscription` does not have. | Any `payment_intent.succeeded` event with two existing users: the create raises TypeError, caught as a 500, and neither the subscription nor the payment is recorded. | Leave the payment id to the PaymentHistory row, which already records it. | not executed; high | PaymentIntentViews.IntentWebhookCreateAlwaysFails | PaymentIntentViews.IntentWebhookCreateSucceedsOnFreePair |
| accounts/views.py:80 | `CreatorProfileForm(request.POST, instance=request.user)` binds no files. `User` has no `verification_document` field, so the instance gives no initial value either, and the required field is always empty. | Any user submits a valid bio, the price 9.99 and a 1 KB PDF: the form reports the document as required. Nobody can become a creator through this view. | Bind `request.FILES` as well, as `edit_profile` does. | not executed; high | AccountViews.DocumentIsAlwaysMissing | AccountViews.BecomeCreator |
