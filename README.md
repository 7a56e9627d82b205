# Persona library and chat session — a Dafny model

This project models the two pieces of logic in the health-dialog-scribe
web app's page components.

- **Persona library** (`src/pages/PersonaLibrary.tsx`). The page holds a
  fixed catalog of three simulated healthcare professionals. It narrows
  the catalog with three criteria joined by AND: a specialty (exact,
  case-sensitive match on `role`), a trait (some trait equal to it up to
  case), and a search term (lowercased, a substring of the lowercased name,
  role, any trait or description). It shows the matching cards in catalog
  order, or "No personas found", and the number of matches.
- **Chat page** (`src/pages/ChatBot.tsx`). The page resolves the route's
  persona id in its own persona table. It seeds the history with a
  greeting. It appends the user's message on send, and after a delay it
  appends a canned reply. The reply's template is chosen by the persona's
  name and mentions the selected product. A saved chat can replace the
  history.

Modules, one file each:

- `Wrappers`: `Option` for the source's `undefined`/`null`, and JavaScript
  truthiness of an optional string.
- `JsString`: `toLowerCase` as an ASCII case fold, `includes` as "occurs as
  a slice" with `indexOf` as its scanning reference, and `trim` over the
  ECMAScript whitespace and line-terminator characters.
- `ArrayFilter`: `Array.prototype.filter` and its laws. The result is the
  input read at exactly the kept positions, in increasing order. Filtering
  twice changes nothing. Two chained filters equal one filter by the
  conjunction.
- `PersonaLibrary`: the catalog constants, the criteria, the three chained
  filters, the rendered card area and count, and lemmas about them.
- `ChatBot`: the chat page's persona table and lookup, the messages, the
  reply chooser, and the class `ChatSession`. The class has the page's
  state (`persona`, `messages`, `inputValue`, `selectedProduct`) and a
  queue `pending` of scheduled replies. Its methods are the event
  handlers. Every `setTimeout` uses the same 1000 ms delay, so timers fire
  in scheduling order. `DeliverReply` is "the oldest timer fires".

Each page keeps its own persona table, and the model keeps both. The two
tables agree on the ids ("innovator", "loyalist", "guide") and on the
names. They differ in the traits, and in Dr. Sarah Chen's role: she is a
Cardiologist in the library and an Oncologist on the chat page.

In several places the code behaves differently from what one might
expect of such an app. The model follows the code:

- Replies are chosen by testing the persona's name for "Sarah" and then
  "Michael". They are not chosen by persona id.
- Sending while a reply is pending is allowed: timers overlap.
- Nothing cancels a scheduled reply. A reply still pending when a saved
  chat is loaded, or when the route switches to another persona, is
  appended to the new history (`ChatBot.ReplyAfterLoad`).
- The selected product is optional (`undefined` through the menu's "none"
  entry). An empty or absent product drops the " regarding …" clause.
- The criteria use JavaScript truthiness: an empty specialty or trait
  string filters nothing, just like `undefined`.

The catalog as shipped has some consequences, proved as lemmas:

- The trait menu's "Evidence-driven" and "Guidelines-focused" match no
  persona, because no catalog trait equals either of them up to case. The
  filter wants a whole trait: "Evidence-driven" is only the start of "Evidence-driven
  switcher", and no catalog trait mentions "Guidelines-focused" at all.
- Choosing "Oncologist" shows only Dr. Emma Rodriguez, even though
  Dr. Sarah Chen's description calls her an oncologist.
- The page never calls `setSearchTerm`, so the search term stays "" and
  the search filter keeps everything. The search filter is still modelled
  as written.

## Model

| member | source | states |
|---|---|---|
| `JsString.ToLowerCase` | src/pages/PersonaLibrary.tsx:135-141 | `toLowerCase` keeps the length and folds every character, upper-case ASCII letters to lower case, others unchanged |
| `JsString.ToLowerCaseIdempotent` | src/pages/PersonaLibrary.tsx:135-141 | lowercasing an already lowercased string changes nothing |
| `JsString.IncludesToLowerCase` | src/pages/PersonaLibrary.tsx:136-141 | an occurrence of a term survives lowercasing both strings, so case never hides a match from the search |
| `JsString.Includes` | src/pages/PersonaLibrary.tsx:136-141 | `includes` (an occurrence of the term as a slice) holds exactly when the `indexOf` scan finds an index |
| `JsString.IndexOfFrom` | src/pages/PersonaLibrary.tsx:136-141 | the scan returns the first index at or after `from` where the term occurs, or -1 when there is none |
| `JsString.IncludesEmpty` | src/pages/PersonaLibrary.tsx:136-141 | every string includes the empty term |
| `JsString.TrimStart` | src/pages/ChatBot.tsx:128 | the leading-whitespace cut leaves a suffix that starts with a non-space, and drops only whitespace |
| `JsString.TrimEnd` | src/pages/ChatBot.tsx:128 | the trailing-whitespace cut leaves a prefix that ends with a non-space, and drops only whitespace |
| `JsString.Trim` | src/pages/ChatBot.tsx:128 | `trim()` returns a contiguous slice of its input that starts and ends with a non-space, and everything cut off on either side is whitespace |
| `JsString.IsBlank` | src/pages/ChatBot.tsx:128 | `!s.trim()` holds iff every character of `s` is whitespace, in both directions |
| `ArrayFilter.Filter` | src/pages/PersonaLibrary.tsx:133-142 | `filter` never grows its input, and every element it returns is from the input and satisfies the predicate |
| `ArrayFilter.FilterSelectsInOrder` | src/pages/PersonaLibrary.tsx:133-142 | the result is the input read at exactly the positions whose element is kept, in increasing order |
| `ArrayFilter.FilterMembership` | src/pages/PersonaLibrary.tsx:133-142 | an element is in the result iff it is in the input and satisfies the predicate |
| `ArrayFilter.FilterKeepsAll` | src/pages/PersonaLibrary.tsx:133-142 | when every element satisfies the predicate the result is the input unchanged |
| `ArrayFilter.FilterIdempotent` | src/pages/PersonaLibrary.tsx:133-142 | filtering the result again with the same predicate returns it unchanged |
| `ArrayFilter.FilterFuse` | src/pages/PersonaLibrary.tsx:133-142 | two chained filters equal one filter by the AND of their predicates |
| `PersonaLibrary.MatchesSpecialty` | src/pages/PersonaLibrary.tsx:134 | with no specialty (absent or "") every persona passes; with one, a persona passes iff its role equals it exactly |
| `PersonaLibrary.MatchesTrait` | src/pages/PersonaLibrary.tsx:135 | with no trait (absent or "") every persona passes; a persona that has the chosen trait as written passes; a passing persona has a trait of the chosen trait's length |
| `PersonaLibrary.MatchesSearch` | src/pages/PersonaLibrary.tsx:136-141 | the empty term passes every persona, and so does a term found as typed in the name, the role or the description |
| `PersonaLibrary.FilteredPersonas` | src/pages/PersonaLibrary.tsx:131-144 | the filtered list is no longer than the catalog, and every persona in it meets all three criteria |
| `PersonaLibrary.FilteredIsOneFilter` | src/pages/PersonaLibrary.tsx:133-142 | the specialty, trait and search filters in a row are one filter by their conjunction |
| `PersonaLibrary.FilteredMembership` | src/pages/PersonaLibrary.tsx:134-141 | a persona is shown iff it is in the catalog and the specialty, trait and search predicates all hold |
| `PersonaLibrary.FilteredInCatalogOrder` | src/pages/PersonaLibrary.tsx:131-144 | the shown list is the catalog at exactly the matching positions, in catalog order, with no reordering and no dedup |
| `PersonaLibrary.FilteredIdempotent` | src/pages/PersonaLibrary.tsx:131-144 | filtering the shown list again with the same criteria returns it unchanged |
| `PersonaLibrary.NoCriteriaShowsCatalog` | src/pages/PersonaLibrary.tsx:134-141 | with no specialty, no trait and an empty search term the whole catalog is shown, in order |
| `PersonaLibrary.SpecialtyIsExactRole` | src/pages/PersonaLibrary.tsx:134 | with a specialty chosen, every shown persona's role equals it exactly |
| `PersonaLibrary.TraitIsCaseInsensitiveEquality` | src/pages/PersonaLibrary.tsx:135 | with a trait chosen, every shown persona has a trait equal to it after lowercasing both |
| `PersonaLibrary.SearchTermIsNotTrimmed` | src/pages/PersonaLibrary.tsx:136-141 | a search term of one space rejects a persona none of whose fields holds a space, so the term is not trimmed |
| `PersonaLibrary.RenderLibrary` | src/pages/PersonaLibrary.tsx:188-214 | the count is the length of the filtered list and equals the number of shown cards, and is at most the catalog size; "No personas found" shows iff the count is 0 |
| `PersonaLibrary.InitialPageShowsEveryone` | src/pages/PersonaLibrary.tsx:121-123 | with the page's initial criteria all three cards are shown and the count is 3 |
| `PersonaLibrary.OncologistShowsEmmaOnly` | src/pages/PersonaLibrary.tsx:25-57 | choosing the first menu specialty, "Oncologist", shows exactly Dr. Emma Rodriguez |
| `PersonaLibrary.MenuTraitsWithNoPersona` | src/pages/PersonaLibrary.tsx:26-57 | choosing the menu trait "Evidence-driven" or "Guidelines-focused" shows no persona |
| `PersonaLibrary.TraitMatchIgnoresCase` | src/pages/PersonaLibrary.tsx:135 | the trait "brand loyalist" matches both "Brand Loyalist" and "Brand loyalist" |
| `PersonaLibrary.SearchIgnoresCase` | src/pages/PersonaLibrary.tsx:136-141 | the search term "DERM" finds Dr. Michael Torres through his role "Dermatologist" |
| `ChatBot.LookupPersona` | src/pages/ChatBot.tsx:109 | an id resolves to a persona iff it is non-empty and a key of the table, and then to that key's own entry |
| `ChatBot.WelcomeMessage` | src/pages/ChatBot.tsx:115-124 | the greeting has id "welcome", is not a user message, and its text contains the persona's name and role |
| `ChatBot.TemplateFor` | src/pages/ChatBot.tsx:154-159 | a name with "Sarah" gets the first template; one with "Michael" and no "Sarah" the second; any other name the third; each iff |
| `ChatBot.ProductContext` | src/pages/ChatBot.tsx:153 | the product clause is empty iff the product is undefined or ""; otherwise it is 11 characters of " regarding " followed by the product |
| `ChatBot.GeneratePersonaResponse` | src/pages/ChatBot.tsx:152-161 | the reply starts with the chosen template's opening and ends with its closing, and is exactly the product clause's length longer than the two |
| `ChatBot.SarahNameGetsQuickToTryReply` | src/pages/ChatBot.tsx:153-155 | any persona whose name contains "Sarah" gets the quick-to-try reply with the product clause inside |
| `ChatBot.MichaelNameGetsBrandLoyalReply` | src/pages/ChatBot.tsx:153-157 | any persona whose name contains "Michael" but not "Sarah" gets the brand-loyal reply |
| `ChatBot.OtherNamesGetGuidelinesReply` | src/pages/ChatBot.tsx:153-160 | any other persona gets the guidelines reply |
| `ChatBot.ResponseNamesProduct` | src/pages/ChatBot.tsx:152-160 | with a product selected, the reply contains " regarding " followed by the product |
| `ChatBot.ResponseIsBareIffNoProduct` | src/pages/ChatBot.tsx:153-160 | the reply is the template with no product clause iff the product is undefined or empty |
| `ChatBot.ResponseIgnoresUserInput` | src/pages/ChatBot.tsx:152-160 | the reply does not depend on what the user typed |
| `ChatBot.SarahGetsFirstTemplate` | src/pages/ChatBot.tsx:154-155 | "Dr. Sarah Chen" contains "Sarah", so it gets the first template |
| `ChatBot.MichaelGetsSecondTemplate` | src/pages/ChatBot.tsx:156-157 | "Dr. Michael Torres" has no "Sarah" and has "Michael", so it gets the second template |
| `ChatBot.EmmaGetsThirdTemplate` | src/pages/ChatBot.tsx:158-159 | "Dr. Emma Rodriguez" contains neither name, so it gets the third template |
| `ChatBot.ShouldSend` | src/pages/ChatBot.tsx:128 | a message is sent iff a persona is active and the input has a character that is not whitespace |
| `ChatBot.WhitespaceIsNeverSent` | src/pages/ChatBot.tsx:128 | input made only of whitespace, the empty input included, is never sent |
| `ChatBot.VisibleInputIsSent` | src/pages/ChatBot.tsx:128 | input with one non-whitespace character is sent whenever a persona is active |
| `ChatBot.UnknownIdBlocksSending` | src/pages/ChatBot.tsx:170-182 | an id outside the table resolves to no persona (the "Persona not found" page), and nothing can be sent |
| `ChatBot.LibraryCardsResolve` | src/pages/ChatBot.tsx:25-47 | every library card's id resolves on the chat page to a persona of the same name; Dr. Sarah Chen's role differs between the two tables |
| `ChatBot.ReplyMessage` | src/pages/ChatBot.tsx:138-147 | the timer's message is not a user message, has the "-ai" id for its firing time, and holds the persona's reply for the captured input and product |
| `ChatBot.ChatSession.constructor` | src/pages/ChatBot.tsx:56-124 | on mount the input is empty, the product is "Rengene", nothing is scheduled, and the history is the greeting if the id resolves and empty otherwise (the persona effect's run on mount) |
| `ChatBot.ChatSession.ChangePersona` | src/pages/ChatBot.tsx:115-125 | when the resolved persona changes to a persona, the history becomes exactly its greeting; otherwise the history is kept; scheduled replies are kept |
| `ChatBot.ChatSession.SetInput` | src/pages/ChatBot.tsx:273 | typing replaces the input buffer and changes nothing else |
| `ChatBot.ChatSession.SelectProduct` | src/pages/ChatBot.tsx:195 | choosing a product replaces the selected product and changes nothing else |
| `ChatBot.ChatSession.SendMessage` | src/pages/ChatBot.tsx:127-150 | blank input or no persona changes nothing and schedules nothing; otherwise exactly one user message with the typed text is appended after the unchanged history, one reply is scheduled, and the input becomes "" |
| `ChatBot.ChatSession.HandleKeyPress` | src/pages/ChatBot.tsx:163-168 | Enter without Shift sends as above; any other key changes nothing |
| `ChatBot.ChatSession.DeliverReply` | src/pages/ChatBot.tsx:138-147 | the oldest scheduled reply is appended as one agent message after the current history and leaves the queue |
| `ChatBot.ChatSession.LoadChat` | src/pages/ChatBot.tsx:100-106 | the history becomes exactly the saved messages, in order, with no merge; scheduled replies are kept |
| `ChatBot.SendThenReply` | src/pages/ChatBot.tsx:127-150 | a send and its delivery add exactly two messages: the user's message at the old length, then the persona's reply to it |
| `ChatBot.ReplyAfterLoad` | src/pages/ChatBot.tsx:100-147 | a reply pending when a saved chat is loaded is appended after the saved messages |

## Left out

- Rendering: JSX, CSS classes, icons, `PersonaCard`, the carousel's scroll arrows, `scrollIntoView` and `requestAnimationFrame`. They are presentation only.
- Routing: `useNavigate`, `useParams` and the "Back to Library" buttons. Only the id-to-persona lookup is modelled. The route's id is a parameter of the constructor and of `ChangePersona`.
- The send button's `disabled={!inputValue.trim()}`. It repeats the blank-input guard that `SendMessage` already models.
- Real time: `Date`, `Date.now()` and `toLocaleTimeString` become abstract natural-number ticks, passed in by the caller. Nothing is claimed about the order of timestamps. Ids built from the same millisecond can collide, and the model does not rule that out.
- Timer semantics: the 1000 ms delay and the event loop become the FIFO queue `pending` and the `DeliverReply` step.
- After the page unmounts, React drops the state updates from late timers. The model has no unmount step.
- `JsString.ToLowerCase`: folds only the ASCII letters, because `toLowerCase` on other scripts needs Unicode case tables.
- `ChatBot.LookupPersona`: treats only the table's own keys as present. An id that names an inherited object property (such as "constructor") is not modelled.
- `ChatBot.ResponseIsBareIffNoProduct`: for an empty product it says the reply equals the bare template, not that the text lacks " regarding ". Ruling a substring out of a long literal would take a position-by-position proof.
- `rating`: a floating-point number that no logic reads.
- The navigation bars' mapping of the "none" menu entry to `undefined` is modelled by taking the criteria and the product as `Option` values.
- The chat page's unused `specialty`, `trait` and `selectedProfessional` states, its `products`, `specialties` and `personaTraits` constants (never read), the professional and product lists it passes inline to its navigation bar, the `recentChats` fixture contents, and the library footer's fixed "of 110". These are display data that no logic reads.
