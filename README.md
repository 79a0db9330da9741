# Big Chat Brasil front-end rules, modelled in Dafny

This project models the rules buried in the event handlers of the Big Chat Brasil React
front-end, a chat demo in which a telecom client logs in with a CPF or CNPJ, lists their
conversations and sends messages paid from a prepaid balance or covered by a postpaid limit.
The REST layer, rendering and routing are outside the model; each request appears only as
its outcome, passed in as a parameter.

The modules, one file each:

- `Domain` (domain.dfy): the record shapes of src/types/interfaces.ts and of the page-local interfaces, with money in integer cents.
- `Text` (text.dfy): `\D`, `trim`, `toLowerCase` and `includes` as the pages use them.
- `Seqs` (seqs.dfy): order-preserving `filter` and `map` on sequences.
- `ClientService` (client_service.dfy): src/services/clientService.ts, the first-match lookup by document.
- `Home` (home.dfy): src/pages/Home.tsx, with document cleaning, length validation, login and registration.
- `Chat` (chat.dfy): src/pages/Chat.tsx, the `handleSendMessage` handler.
- `Conversations` (conversations.dfy): src/pages/Conversations.tsx, with the ownership filter, the search and the unread reset.
- `MessageInput` (message_input.dfy): src/components/MessageInput.tsx, the trim-and-clear send rule.

Every page that holds state becomes a class. Its fields are the page's React state, plus
the server-side records the page writes: the Chat page's stored messages and the stored
balance of client "1".
Each handler is a method with the same early returns as the source. Where a handler's effect
is worth reasoning about across calls, a pure function specifies it: `Home.Login`,
`Home.ValidateRegistration`, `Home.CreateAccount`, `Chat.SendMessage`, `Conversations.ResetUnread` and
`MessageInput.Send`. The method's postcondition equates the new state with that function of
the old state, and lemmas state the properties of the function.

Things the model follows exactly as the code is written:

- A document is valid by length alone: 11 digits for a CPF, 14 for a CNPJ. Check digits are not examined.
- The lookup compares documents by exact equality. Only the page cleans the input, and it does so before the lookup.
- A message costs a flat 25 cents. Only prepaid clients are checked for funds. A postpaid limit is never debited.
- The message is POSTed before the balance is PATCHed. The two are not one step. If the PATCH throws, the message is stored on the server but neither charged nor shown (`Chat.PatchFailureLeavesMessageUncharged`).
- The Chat page never reloads its client record after a PATCH. Every send therefore writes "balance as first loaded − 25", so a second send in a row is not charged (`Chat.SecondSendUsesStaleBalance`). This contradicts the intended debit rule. It is kept here because it is what the code does.
- The Chat page checks and charges client "1", whoever logged in. src/App.tsx:50 renders the page without the session's client, Chat.tsx:54 loads `clients/1`, and Chat.tsx:111 PATCHes `clients/1`. The affordability check and the debit therefore use client "1"'s plan and balance, and `Chat.ChatPage.client` is that record. The model keeps this, since the page's client is simply whatever record it loaded.
- After any error the Chat page shows only the error text (Chat.tsx:135), and while loading only "Carregando..." (Chat.tsx:134). A refused or failed send therefore ends the conversation view until the page is reloaded (`Chat.FailedSendEndsConversationView`), and `Chat.ChatPage.HandleSendMessage` requires that no error is shown (`Chat.InputShown`).
- A sent message has status `sent`, not `queued`, and its content is the input untrimmed. Only the blank check trims.
- clientService.ts does not define the `createClient` that Home.tsx:82 calls. As written, that call throws a TypeError once both checks pass, the catch at Home.tsx:99-100 shows its message, and every registration fails with the form kept (`Home.CreateAccountAsWrittenKeepsForm`; see "## Findings"). The answer of the creation request is a parameter of the model (`Home.CreateResponse`), so the model also states what a 201 would do (`Home.CreateAccountResetsOnCreated`). That reset holds only for an implementation of `createClient` that the repository lacks.

## Model

| member | source | states |
|---|---|---|
| `Text.Trim` | src/components/MessageInput.tsx:11 | the trimmed text is empty exactly when the input is all whitespace; otherwise it neither starts nor ends with whitespace |
| `Text.TrimIsSlice` | src/components/MessageInput.tsx:11-12 | the trimmed text is a contiguous slice of the input, with only whitespace before and after it |
| `Text.TrimIdempotent` | src/components/MessageInput.tsx:11-12 | trimming twice is trimming once |
| `Text.Includes` | src/pages/Conversations.tsx:67-68 | `includes` holds exactly when the term occurs at some offset of the string |
| `Text.IncludesEmpty` | src/pages/Conversations.tsx:66-69 | every string includes the empty term |
| `Seqs.Filter` | src/pages/Conversations.tsx:52-54 | the result keeps only elements passing the test, each taken from the input, and every passing element of the input is kept |
| `ClientService.FindByDocumentId` | src/services/clientService.ts:17 | a found client is in the list and has exactly the given document; nothing is found exactly when no client has it |
| `ClientService.FindReturnsEarliest` | src/services/clientService.ts:17 | when several clients match, the one earliest in the list is returned |
| `ClientService.UnnormalisedDocumentNotFound` | src/services/clientService.ts:17 | no normalisation: a document still holding non-digits never matches a directory of digit-only documents |
| `ClientService.FetchClientByDocumentId` | src/services/clientService.ts:9-22 | a failed fetch is an error with the fixed message, distinct from "not found"; a successful one yields the first-match search |
| `Home.CleanDocument` | src/pages/Home.tsx:37 | the cleaned document holds only digits, is no longer than the input and keeps every digit of it |
| `Home.CleanKeepsDigitsInOrder` | src/pages/Home.tsx:37 | the cleaned document is a subsequence of the input and keeps each digit as many times as it occurs |
| `Home.CleanConcat` | src/pages/Home.tsx:37 | cleaning a concatenation concatenates the cleaned parts |
| `Home.CleanDigitsUnchanged` | src/pages/Home.tsx:162 | a document already made of digits is unchanged by cleaning |
| `Home.CleanIdempotent` | src/pages/Home.tsx:66 | cleaning twice is cleaning once, so the form's pre-cleaned document survives the second cleaning |
| `Home.Login` | src/pages/Home.tsx:35-56 | a cleaned length other than 11 (CPF) or 14 (CNPJ) is rejected before any lookup; a failed fetch, a missing client and a found client are told apart; a logged-in client is in the list and carries the cleaned document |
| `Home.LoginIgnoresFormatting` | src/pages/Home.tsx:37-46 | the raw input and its cleaned form lead to the same outcome, because only the cleaned document is looked up |
| `Home.ValidateRegistration` | src/pages/Home.tsx:61-72 | an empty name is rejected before the document is looked at; otherwise the cleaned length decides |
| `Home.NewClientRecord` | src/pages/Home.tsx:74-80 | the record takes the radio-selected document type and the given id; a prepaid client gets the entered balance (0 when missing) and no limit, a postpaid one a limit of R$ 100 and no balance |
| `Home.RequiredLength` | src/pages/Home.tsx:38 | a CPF needs exactly 11 digits and a CNPJ exactly 14 |
| `Home.IsValidDocument` | src/pages/Home.tsx:38 | a cleaned document is valid exactly when it has 11 digits for a CPF or 14 for a CNPJ |
| `Home.LoginError` | src/pages/Home.tsx:36-54 | the error line is empty exactly when the client logged in |
| `Home.LoginErrorIdentifiesOutcome` | src/pages/Home.tsx:41-54 | the invalid-document, not-found and lookup-failed messages differ, so the error line tells the failures apart |
| `Home.RegistrationError` | src/pages/Home.tsx:59-100 | an empty name shows "Nome é obrigatório"; a non-201 status shows "Erro ao criar conta"; a created account leaves the line empty, and so does nothing else except a thrown error with an empty message |
| `Home.CreateAccount` | src/pages/Home.tsx:58-102 | a record is sent exactly when the name is present and the cleaned document valid, and it is the record built from the form; an empty name only sets the error; the form is either kept with a new error line or reset to its defaults, and a 201 resets it |
| `Home.CreateAccountAsWrittenKeepsForm` | src/pages/Home.tsx:82-100 | when the creation call throws, as the missing `createClient` makes it do, the dialog, the form and the document type are kept and a validated attempt shows the thrown message |
| `Home.CreateAccountResetsOnCreated` | src/pages/Home.tsx:84-98 | with an answer of 201, a valid form is sent and the dialog closes with the form at its defaults and no error |
| `Home.HomePage.constructor` | src/pages/Home.tsx:21-32 | the page starts with empty fields, CPF, a prepaid form with balance 0, active, and nobody logged in |
| `Home.HomePage.EditLoginDocument` | src/pages/Home.tsx:234 | typing in the login field changes only that field |
| `Home.HomePage.OpenModal` | src/pages/Home.tsx:251-254 | opening the dialog shows it and clears the error |
| `Home.HomePage.CancelModal` | src/pages/Home.tsx:207-210 | cancelling hides the dialog and clears the error, keeping the form |
| `Home.HomePage.SelectDocumentType` | src/pages/Home.tsx:119-134 | the radio buttons set the page's and the form's document type together |
| `Home.HomePage.EditName` | src/pages/Home.tsx:149 | the name field changes only the form's name |
| `Home.HomePage.EditDocument` | src/pages/Home.tsx:162 | the registration document field stores the cleaned text, so it always holds digits only |
| `Home.HomePage.SelectPlan` | src/pages/Home.tsx:174-183 | the plan radio buttons change only the form's plan |
| `Home.HomePage.EditBalance` | src/pages/Home.tsx:197 | the balance field changes only the form's balance |
| `Home.HomePage.HandleLogin` | src/pages/Home.tsx:35-56 | the lookup is called with the cleaned document and only when its length is valid; the error line and the logged-in client follow `Login` |
| `Home.HomePage.HandleCreateAccount` | src/pages/Home.tsx:58-102 | the dialog's new state and the request sent are those of `CreateAccount`, the sent record carries the cleaned document, and the login field and session are untouched |
| `Chat.OutgoingMessage` | src/pages/Chat.tsx:87-98 | the stored message is sent by the current user with priority normal, status sent and cost 25 cents |
| `Chat.Ignored` | src/pages/Chat.tsx:78 | a send is ignored exactly when the input is all whitespace, no client is loaded, or the route id is missing or empty |
| `Chat.CannotAfford` | src/pages/Chat.tsx:80-85 | only prepaid clients are refused, exactly when their balance (missing read as 0) is below 25 cents |
| `Chat.Mirror` | src/pages/Chat.tsx:122-127 | a loaded conversation gets the sent text and the time as its last message, every other field kept; no conversation stays none |
| `Chat.SendMessage` | src/pages/Chat.tsx:77-132 | a send never changes the in-memory client record or the route |
| `Chat.IgnoredChangesNothing` | src/pages/Chat.tsx:78 | blank input, no client, or a missing or empty route id: nothing changes |
| `Chat.InsufficientBalanceBlocks` | src/pages/Chat.tsx:80-85 | a prepaid client whose balance (missing read as 0) is below 25 cents gets "Saldo insuficiente", and nothing is posted, debited or appended |
| `Chat.PostpaidNeverBlockedNorDebited` | src/pages/Chat.tsx:82-116 | a postpaid client passes the check, and a created message is appended with the stored balance untouched |
| `Chat.PostFailureChangesNoMoney` | src/pages/Chat.tsx:100-107 | a POST that fails or throws leaves the stored balance, stored messages, message list and input unchanged |
| `Chat.DeliveredSend` | src/pages/Chat.tsx:118-127 | a delivered send appends exactly the stored message after the unchanged old list, clears the input and the error, and sets the conversation's last message to the sent text, other fields except the time unchanged |
| `Chat.DeliveredMessageShape` | src/pages/Chat.tsx:87-98 | the appended message has the server's id, priority normal, status sent, cost 25, the route's conversation id and the input exactly as typed |
| `Chat.PrepaidDebit` | src/pages/Chat.tsx:110-116 | after a delivered prepaid send whose PATCH applied, the stored balance is the loaded balance minus 25, never negative |
| `Chat.SecondSendUsesStaleBalance` | src/pages/Chat.tsx:110-116 | two delivered prepaid sends in a row both write loaded balance minus 25, though two messages were stored |
| `Chat.PatchFailureLeavesMessageUncharged` | src/pages/Chat.tsx:100-131 | a PATCH that throws after a successful POST leaves the message stored but not debited and not shown, with the error set |
| `Chat.FailedSendEndsConversationView` | src/pages/Chat.tsx:82-135 | a send that is neither ignored nor delivered leaves a non-empty error, so the page no longer offers the input, unless the thrown error's message was empty |
| `Chat.ChatPage.constructor` | src/pages/Chat.tsx:42-47 | the page starts from the loaded route, client, conversation and messages, with empty input, no error and the client's balance as the stored balance |
| `Chat.ChatPage.Type` | src/pages/Chat.tsx:200 | typing, possible only while no error is shown, changes only the input |
| `Chat.ChatPage.HandleSendMessage` | src/pages/Chat.tsx:77-132 | a send, possible only while no error is shown (Chat.tsx:134-135), makes the new page and server state `SendMessage` of the old |
| `Conversations.OwnedBy` | src/pages/Conversations.tsx:52-54 | every kept conversation has the client as recipient and comes from the input, and every such conversation of the input is kept |
| `Conversations.OwnedByKeepsOrder` | src/pages/Conversations.tsx:52-54 | the kept conversations are a subsequence of the input, each owned one as many times as it occurs and no other |
| `Conversations.MatchesSearch` | src/pages/Conversations.tsx:67-68 | a conversation matches exactly when the lower-cased term occurs in its lower-cased recipient name or in its lower-cased last message |
| `Text.Lower` | src/pages/Conversations.tsx:67-68 | the lower-cased text has the same length, no ASCII capital, each capital replaced by its small letter and every other character kept |
| `Conversations.Search` | src/pages/Conversations.tsx:66-69 | a conversation is listed exactly when the lower-cased term occurs in its lower-cased recipient name or last message |
| `Conversations.SearchKeepsOrder` | src/pages/Conversations.tsx:66-69 | the search result is an order-preserving subsequence of the list |
| `Conversations.EmptySearchKeepsAll` | src/pages/Conversations.tsx:66-69 | an empty term lists every conversation |
| `Conversations.SearchIgnoresCase` | src/pages/Conversations.tsx:66-69 | searching for the lower-cased term lists the same conversations |
| `Conversations.ResetUnread` | src/pages/Conversations.tsx:108-110 | same length; entries with the id get count 0 and keep every other field; all other entries are unchanged |
| `Conversations.ResetUnreadWhenNoneUnread` | src/pages/Conversations.tsx:107-110 | when the entries with the id already have count 0, the reset changes nothing |
| `Conversations.ResetUnreadIdempotent` | src/pages/Conversations.tsx:106-111 | opening a conversation twice is opening it once |
| `Conversations.ResetUnreadCommutesWithFilters` | src/pages/Conversations.tsx:108-110 | the reset does not change which conversations the ownership filter or the search keeps |
| `Conversations.ConversationsPage.constructor` | src/pages/Conversations.tsx:40-43 | the page starts empty, loading, without error or search term |
| `Conversations.ConversationsPage.Displayed` | src/pages/Conversations.tsx:66-69 | each displayed conversation is in the list and matches the search term |
| `Conversations.ConversationsPage.Load` | src/pages/Conversations.tsx:45-64 | without a client nothing is requested (`requested` is false) and the list stays empty; otherwise the list becomes the owned conversations, or the error is set, and loading ends |
| `Conversations.ConversationsPage.SetSearchTerm` | src/pages/Conversations.tsx:94 | typing in the search box, shown only after loading and while no error is shown (Conversations.tsx:78-79), changes only the term |
| `Conversations.ConversationsPage.OpenConversation` | src/pages/Conversations.tsx:106-111 | clicking, possible only while the list is shown (Conversations.tsx:78-79): a positive displayed count resets every entry with that id to 0 and leaves all else unchanged; a zero count changes nothing |
| `MessageInput.Send` | src/components/MessageInput.tsx:10-14 | whitespace-only text emits nothing and keeps the field; otherwise exactly one emission, of the trimmed text, and the field is cleared |
| `MessageInput.KeyDown` | src/components/MessageInput.tsx:16-21 | Enter behaves exactly like the send button; any other key changes nothing |
| `MessageInput.EmittedTextIsTrimmed` | src/components/MessageInput.tsx:11-12 | the emitted text is non-empty, has no whitespace at either end and is a slice of the typed text |
| `MessageInput.SecondSendEmitsNothing` | src/components/MessageInput.tsx:11-13 | right after a send, sending again emits nothing |
| `MessageInput.MessageInputBox.constructor` | src/components/MessageInput.tsx:8 | the field starts empty and nothing has been emitted |
| `MessageInput.MessageInputBox.Change` | src/components/MessageInput.tsx:28 | typing changes only the field |
| `MessageInput.MessageInputBox.HandleSend` | src/components/MessageInput.tsx:10-14 | the new field and emissions are `Send` of the old |
| `MessageInput.MessageInputBox.HandleKeyDown` | src/components/MessageInput.tsx:16-21 | the new field and emissions are `KeyDown` of the old |

## Left out

- HTTP requests are not modelled. This covers every method of src/services/chatService.ts, the `fetch` calls of clientService.ts and the initial GETs of Chat.tsx (lines 49-75). Each request appears only as its outcome, passed in as a parameter: `Result`, `PostResult`, `PatchResult`, `CreateResponse`.
- `getClientById` in clientService.ts is only an HTTP request with an error path, and no modelled page calls it.
- `createClient` is not defined in clientService.ts, so its answer is an abstract `CreateResponse`. The TypeError the call throws as written is one value of that parameter, `Threw(m)`, with `m` left open because its wording depends on the JavaScript engine.
- Home.HomePage.HandleCreateAccount: a thrown value that is not an `Error` shows 'Erro desconhecido' in the source. The model assumes every thrown value is an `Error` and shows its message.
- Asynchronous interleaving is not modelled. Each handler runs as one sequential step, so the race between concurrent sends, or between the POST and the PATCH, is not captured.
- Money is in integer cents rather than floating point. Amount formatting with `toFixed` is left out: Chat.tsx lines 185 and 226-227, Conversations.tsx lines 71-76.
- A balance that is `NaN` is modelled as a missing one (`None`). Both read as 0 under `|| 0`.
- Clock readings are opaque string parameters. This covers message timestamps, `lastMessageTime` and the `Date.now()`-based client id.
- `toLowerCase` is modelled for the ASCII letters only. Other Unicode case mappings are not captured.
- `trim` and `\D` are exact. The whitespace set is ECMAScript's WhiteSpace and LineTerminator code points, and `\d` matches ASCII digits only.
- The Chat page's `loading` flag is not modelled. `Chat.ChatPage.constructor` is the page after loading has ended, so no send can happen while loading. A failed initial load, which sets the error and so hides the input for good, is not modelled. The early return on an error (Chat.tsx:135) is modelled as the precondition `Chat.InputShown` of `Type` and `HandleSendMessage`. `Chat.SendMessage` itself is defined from any state.
- Chat.DeliveredMessageShape: the message appended and stored is the POSTed record plus the server-assigned id. The page appends whatever the server answered (Chat.tsx:108, :118), so this assumes a server that echoes the posted record, as json-server does. `Chat.PostFailureChangesNoMoney` likewise takes a POST that throws to mean nothing was stored, which is not so when a stored message's answer fails to parse at Chat.tsx:108.
- Chat.ChatPage: a missing route id and an empty one both count as "no id". An absent id is `None` and an empty one is `Some("")`.
- The `active` flag of a client is carried but never checked, because no modelled code reads it.
- Routing and the login gate in src/App.tsx are not modelled.
- The presentation-only components are not modelled: MessageBubble.tsx, ConversationList.tsx, ChatWindow.tsx, Modal.tsx.
- LoginPage.tsx is not modelled. No route uses it.
- src/types/interfaces.ts has no behaviour. It serves only as the guide to the datatypes in `Domain`.

## Findings

| source | as written | input that shows it | evidently intended | confidence | as-written member | corrected member |
|---|---|---|---|---|---|---|
| src/pages/Home.tsx:82 | calls `clientService.createClient`, which src/services/clientService.ts does not define, so the call throws and the catch shows the TypeError's message | any registration with a name and a document of the right length, e.g. name "Ana", CPF "12345678901" | the record is POSTed and, on a 201, the dialog closes and the form resets | high; not executed | `Home.CreateAccountAsWrittenKeepsForm` | `Home.CreateAccountResetsOnCreated` |
