/** The chat page: the persona table it looks the route's id up in, the
    canned reply chooser, and the session state (message history, input
    box, selected product) that its event handlers update. */
module ChatBot {
  import opened Wrappers
  import opened JsString
  import PersonaLibrary

  /** The chat page's own persona record. Its icon is presentation and its
      rating a number nothing reads; neither is modelled. */
  datatype PersonaData = PersonaData(name: string, role: string, traits: seq<string>)

  /** `personaData`, keyed by the id in the route. */
  const PersonaDataTable: map<string, PersonaData> := map[
    "innovator" := PersonaData("Dr. Sarah Chen", "Oncologist",
                               ["Quick to try new drugs", "Evidence-driven switcher"]),
    "loyalist" := PersonaData("Dr. Michael Torres", "Dermatologist",
                              ["Brand loyalist", "Moderately evidence-aware"]),
    "guide" := PersonaData("Dr. Emma Rodriguez", "Oncologist",
                           ["Humorous", "Data-driven", "Motivational", "Referencing guidelines"])
  ]

  /** The product selected when the page opens. */
  const DefaultProduct: string := "Rengene"

  /** Resolves the page's persona id against the chat table. A missing or
      empty id, or an id not in the table, resolves to no persona; a known
      id resolves to its own entry. */
  function LookupPersona(personaId: Option<string>): (r: Option<PersonaData>)
    ensures r.Some? <==> Truthy(personaId) && personaId.value in PersonaDataTable
    ensures r.Some? ==> r.value == PersonaDataTable[personaId.value]
  {
    if Truthy(personaId) && personaId.value in PersonaDataTable
    then Some(PersonaDataTable[personaId.value])
    else None
  }

  // ---------------------------------------------------------------- messages

  /** Message ids: a fixed text ("welcome", or a saved chat's "rc-1"), or
      `Date.now().toString()` followed by "-user" or "-ai", with the clock
      reading as an abstract tick. */
  datatype MessageId = Literal(text: string) | Stamped(tick: nat, suffix: string)

  /** A chat message; `timestamp` is the clock reading as an abstract tick. */
  datatype Message = Message(id: MessageId, content: string, isUser: bool, timestamp: nat)

  function WelcomeText(p: PersonaData): string {
    "Hello! I'm " + p.name + ", " + p.role
      + ". I'm here to discuss medical treatments and answer any questions you might have. How can I help you today?"
  }

  /** The greeting the page seeds the history with once a persona resolves. */
  function WelcomeMessage(p: PersonaData, now: nat): (m: Message)
    ensures m.id == Literal("welcome") && !m.isUser
    ensures Includes(m.content, p.name) && Includes(m.content, p.role)
  {
    var text := WelcomeText(p);
    var opening := "Hello! I'm ";
    assert text[|opening|..|opening| + |p.name|] == p.name;
    IncludesAt(text, p.name, |opening|);
    var before := |opening| + |p.name| + 2;
    assert text[before..before + |p.role|] == p.role;
    IncludesAt(text, p.role, before);
    Message(Literal("welcome"), text, false, now)
  }

  function UserMessage(input: string, now: nat): Message {
    Message(Stamped(now, "-user"), input, true, now)
  }

  // ----------------------------------------------------------- reply chooser

  /** The three canned replies of `generatePersonaResponse`. */
  datatype Template = QuickToTry | BrandLoyal | Guidelines

  /** The first name test that succeeds picks the template: a name with
      "Sarah" gets the first, one with "Michael" but no "Sarah" the second,
      and every other name the third. */
  function TemplateFor(name: string): (t: Template)
    ensures t == QuickToTry <==> Includes(name, "Sarah")
    ensures t == BrandLoyal <==> !Includes(name, "Sarah") && Includes(name, "Michael")
    ensures t == Guidelines <==> !Includes(name, "Sarah") && !Includes(name, "Michael")
  {
    if Includes(name, "Sarah") then QuickToTry
    else if Includes(name, "Michael") then BrandLoyal
    else Guidelines
  }

  const QuickToTryOpening := "As an oncologist who's quick to try new drugs"
  const QuickToTryClosing :=
    ", I'm always interested in evidence-driven solutions. What's the latest clinical data and trial results supporting this treatment approach?"
  const BrandLoyalOpening :=
    "As a dermatologist, I tend to be brand loyal and stick with established treatments that work"
  const BrandLoyalClosing := ". Can you show me how this compares to the protocols I'm already comfortable using?"
  const GuidelinesOpening := "That's a great question! Let me reference the current guidelines"
  const GuidelinesClosing :=
    ". The data suggests... *chuckles* You know, keeping up with evidence-based medicine keeps us all on our toes!"

  /** The template's text before the product clause. */
  function Opening(t: Template): string {
    match t
    case QuickToTry => QuickToTryOpening
    case BrandLoyal => BrandLoyalOpening
    case Guidelines => GuidelinesOpening
  }

  /** The template's text after the product clause. */
  function Closing(t: Template): string {
    match t
    case QuickToTry => QuickToTryClosing
    case BrandLoyal => BrandLoyalClosing
    case Guidelines => GuidelinesClosing
  }

  /** The product clause of a reply: " regarding " and the product's name
      when a product is selected, and nothing when it is undefined or
      empty. */
  function ProductContext(product: Option<string>): (r: string)
    ensures r == "" <==> !Truthy(product)
    ensures Truthy(product) ==> |r| == 11 + |product.value| && r[..11] == " regarding " && r[11..] == product.value
  {
    if Truthy(product) then " regarding " + product.value else ""
  }

  /** The canned reply for a persona: the opening of the template chosen
      by the persona's name, then the product clause, then the template's
      closing. What the user typed is not read. */
  function GeneratePersonaResponse(userInput: string, persona: PersonaData, product: Option<string>): (r: string)
    ensures var t := TemplateFor(persona.name);
      |Opening(t)| + |Closing(t)| <= |r| && r[..|Opening(t)|] == Opening(t) && r[|r| - |Closing(t)|..] == Closing(t)
    ensures var t := TemplateFor(persona.name);
      |r| == |Opening(t)| + |Closing(t)| + (if Truthy(product) then 11 + |product.value| else 0)
  {
    var t := TemplateFor(persona.name);
    Opening(t) + ProductContext(product) + Closing(t)
  }

  /** The reply names the product when one is selected. */
  lemma ResponseNamesProduct(userInput: string, persona: PersonaData, product: Option<string>)
    requires Truthy(product)
    ensures Includes(GeneratePersonaResponse(userInput, persona, product), " regarding " + product.value)
  {
    var t := TemplateFor(persona.name);
    var r := GeneratePersonaResponse(userInput, persona, product);
    var clause := " regarding " + product.value;
    assert r[|Opening(t)|..|Opening(t)| + |clause|] == clause;
    IncludesAt(r, clause, |Opening(t)|);
  }

  /** The reply is the bare template, with no product clause, exactly when
      no product is selected (undefined or ""). */
  lemma ResponseIsBareIffNoProduct(userInput: string, persona: PersonaData, product: Option<string>)
    ensures var t := TemplateFor(persona.name);
      GeneratePersonaResponse(userInput, persona, product) == Opening(t) + Closing(t) <==> !Truthy(product)
  {
  }

  /** The reply depends on the persona and the product only; what the user
      typed plays no part. */
  lemma ResponseIgnoresUserInput(x: string, y: string, persona: PersonaData, product: Option<string>)
    ensures GeneratePersonaResponse(x, persona, product) == GeneratePersonaResponse(y, persona, product)
  {
  }

  /** Any persona whose name contains "Sarah" gets the quick-to-try reply. */
  lemma SarahNameGetsQuickToTryReply(userInput: string, persona: PersonaData, product: Option<string>)
    requires Includes(persona.name, "Sarah")
    ensures GeneratePersonaResponse(userInput, persona, product)
         == QuickToTryOpening + ProductContext(product) + QuickToTryClosing
  {
  }

  /** Any persona whose name contains "Michael" but not "Sarah" gets the
      brand-loyal reply. */
  lemma MichaelNameGetsBrandLoyalReply(userInput: string, persona: PersonaData, product: Option<string>)
    requires !Includes(persona.name, "Sarah") && Includes(persona.name, "Michael")
    ensures GeneratePersonaResponse(userInput, persona, product)
         == BrandLoyalOpening + ProductContext(product) + BrandLoyalClosing
  {
  }

  /** Every other persona gets the guidelines reply. */
  lemma OtherNamesGetGuidelinesReply(userInput: string, persona: PersonaData, product: Option<string>)
    requires !Includes(persona.name, "Sarah") && !Includes(persona.name, "Michael")
    ensures GeneratePersonaResponse(userInput, persona, product)
         == GuidelinesOpening + ProductContext(product) + GuidelinesClosing
  {
  }

  /** Dr. Sarah Chen gets the first template. */
  lemma SarahGetsFirstTemplate()
    ensures TemplateFor("Dr. Sarah Chen") == QuickToTry
  {
    var name := "Dr. Sarah Chen";
    assert name[4..9] == "Sarah";
    IncludesAt(name, "Sarah", 4);
  }

  /** Dr. Michael Torres gets the second template: his name has no "Sarah"
      and has "Michael". */
  lemma MichaelGetsSecondTemplate()
    ensures TemplateFor("Dr. Michael Torres") == BrandLoyal
  {
    var name := "Dr. Michael Torres";
    assert name[4..11] == "Michael";
    IncludesAt(name, "Michael", 4);
    NotIncludedWithoutChar(name, "Sarah", 0);
  }

  /** Dr. Emma Rodriguez gets the third template: her name has neither an
      "S" nor an "M". */
  lemma EmmaGetsThirdTemplate()
    ensures TemplateFor("Dr. Emma Rodriguez") == Guidelines
  {
    var name := "Dr. Emma Rodriguez";
    assert !Includes(name, "Sarah") by {
      NotIncludedWithoutChar(name, "Sarah", 0);
    }
    assert !Includes(name, "Michael") by {
      NotIncludedWithoutChar(name, "Michael", 0);
    }
  }

  // ------------------------------------------------------------- send guard

  /** A message is sent only when the input is not blank once trimmed and
      a persona is active: that is, when the input has a character that is
      not whitespace. */
  predicate ShouldSend(input: string, persona: Option<PersonaData>)
    ensures ShouldSend(input, persona) <==>
      persona.Some? && exists i :: 0 <= i < |input| && !IsJsWhitespace(input[i])
  {
    !IsBlank(input) && persona.Some?
  }

  /** Input made of whitespace only (the empty input included) is never
      sent. */
  lemma WhitespaceIsNeverSent(input: string, persona: Option<PersonaData>)
    requires forall i :: 0 <= i < |input| ==> IsJsWhitespace(input[i])
    ensures !ShouldSend(input, persona)
  {
  }

  /** Input with a visible character is sent whenever a persona is active. */
  lemma VisibleInputIsSent(input: string, persona: PersonaData, i: int)
    requires 0 <= i < |input| && !IsJsWhitespace(input[i])
    ensures ShouldSend(input, Some(persona))
  {
  }

  /** An id that is not in the table resolves to no persona, so the page
      shows "Persona not found" and nothing can be sent. */
  lemma UnknownIdBlocksSending(personaId: string, input: string)
    requires personaId !in PersonaDataTable
    ensures LookupPersona(Some(personaId)) == None
    ensures !ShouldSend(input, LookupPersona(Some(personaId)))
  {
  }

  /** Every card of the library opens a chat with the persona of the same
      name (the two pages keep separate tables, and Dr. Sarah Chen is a
      Cardiologist in one and an Oncologist in the other). */
  lemma LibraryCardsResolve()
    ensures forall p | p in PersonaLibrary.Personas ::
      LookupPersona(Some(p.id)).Some? && LookupPersona(Some(p.id)).value.name == p.name
    ensures PersonaLibrary.SarahChen.role != LookupPersona(Some("innovator")).value.role
  {
  }

  // ---------------------------------------------------------- chat session

  /** A reply scheduled by `setTimeout`: the values the callback closes
      over when the message is sent. */
  datatype PendingReply = PendingReply(userInput: string, persona: PersonaData, product: Option<string>)

  /** The agent message the timer callback appends when it fires at `now`. */
  function ReplyMessage(r: PendingReply, now: nat): (m: Message)
    ensures !m.isUser && m.id == Stamped(now, "-ai")
    ensures m.content == GeneratePersonaResponse(r.userInput, r.persona, r.product)
  {
    Message(Stamped(now, "-ai"), GeneratePersonaResponse(r.userInput, r.persona, r.product), false, now)
  }

  /** The state of one mounted chat page. Every timer uses the same delay,
      so scheduled replies fire in the order they were scheduled: `pending`
      is that queue. */
  class ChatSession {
    var persona: Option<PersonaData>
    var messages: seq<Message>
    var inputValue: string
    var selectedProduct: Option<string>
    var pending: seq<PendingReply>

    /** The page mounts for `/chat/:personaId`: empty history and input,
        the default product, then the welcome effect. */
    constructor (personaId: Option<string>, now: nat)
      ensures persona == LookupPersona(personaId)
      ensures messages == if persona.Some? then [WelcomeMessage(persona.value, now)] else []
      ensures inputValue == "" && selectedProduct == Some(DefaultProduct) && pending == []
    {
      var resolved := LookupPersona(personaId);
      persona := resolved;
      messages := [];
      inputValue := "";
      selectedProduct := Some(DefaultProduct);
      pending := [];
      if resolved.Some? {
        messages := [WelcomeMessage(resolved.value, now)];
      }
    }

    /** The route's id changes while the page stays mounted. The welcome
        effect runs when the resolved persona changes, and replaces the
        history only when there is a persona; replies already scheduled
        stay scheduled. */
    method ChangePersona(personaId: Option<string>, now: nat)
      modifies this
      ensures persona == LookupPersona(personaId)
      ensures messages ==
        if persona.Some? && persona != old(persona) then [WelcomeMessage(persona.value, now)]
        else old(messages)
      ensures inputValue == old(inputValue) && selectedProduct == old(selectedProduct)
      ensures pending == old(pending)
    {
      var resolved := LookupPersona(personaId);
      if resolved != persona {
        persona := resolved;
        if resolved.Some? {
          messages := [WelcomeMessage(resolved.value, now)];
        }
      }
    }

    /** The input box's `onChange`. */
    method SetInput(value: string)
      modifies this
      ensures inputValue == value
      ensures persona == old(persona) && messages == old(messages)
      ensures selectedProduct == old(selectedProduct) && pending == old(pending)
    {
      inputValue := value;
    }

    /** The product menu's `onChangeProduct`; `None` is its "none" entry. */
    method SelectProduct(choice: Option<string>)
      modifies this
      ensures selectedProduct == choice
      ensures persona == old(persona) && messages == old(messages)
      ensures inputValue == old(inputValue) && pending == old(pending)
    {
      selectedProduct := choice;
    }

    /** `handleSendMessage` at time `now`. Blank input or no persona: nothing
        changes and no reply is scheduled. Otherwise the user's message is
        appended as typed, a reply is scheduled with the current persona
        and product, and the input box is cleared. */
    method SendMessage(now: nat) returns (sent: bool)
      modifies this
      ensures sent == ShouldSend(old(inputValue), old(persona))
      ensures sent ==> messages == old(messages) + [UserMessage(old(inputValue), now)]
      ensures sent ==> pending == old(pending) + [PendingReply(old(inputValue), old(persona).value, old(selectedProduct))]
      ensures sent ==> inputValue == ""
      ensures !sent ==> messages == old(messages) && pending == old(pending) && inputValue == old(inputValue)
      ensures persona == old(persona) && selectedProduct == old(selectedProduct)
    {
      if IsBlank(inputValue) || persona.None? {
        return false;
      }
      messages := messages + [UserMessage(inputValue, now)];
      pending := pending + [PendingReply(inputValue, persona.value, selectedProduct)];
      inputValue := "";
      sent := true;
    }

    /** `handleKeyPress`: Enter without Shift sends; any other key does
        nothing. */
    method HandleKeyPress(key: string, shiftKey: bool, now: nat) returns (sent: bool)
      modifies this
      ensures sent == (key == "Enter" && !shiftKey && ShouldSend(old(inputValue), old(persona)))
      ensures sent ==> messages == old(messages) + [UserMessage(old(inputValue), now)]
      ensures sent ==> pending == old(pending) + [PendingReply(old(inputValue), old(persona).value, old(selectedProduct))]
      ensures sent ==> inputValue == ""
      ensures !sent ==> messages == old(messages) && pending == old(pending) && inputValue == old(inputValue)
      ensures persona == old(persona) && selectedProduct == old(selectedProduct)
    {
      sent := false;
      if key == "Enter" && !shiftKey {
        sent := SendMessage(now);
      }
    }

    /** The oldest scheduled timer fires at `now`: its reply is appended to
        the history as it is then, whatever happened since it was
        scheduled. A timer fires only once it has been scheduled. */
    method DeliverReply(now: nat)
      requires pending != []
      modifies this
      ensures messages == old(messages) + [ReplyMessage(old(pending)[0], now)]
      ensures pending == old(pending)[1..]
      ensures persona == old(persona) && inputValue == old(inputValue)
      ensures selectedProduct == old(selectedProduct)
    {
      messages := messages + [ReplyMessage(pending[0], now)];
      pending := pending[1..];
    }

    /** `handleLoadChat`: the history becomes the saved chat, exactly and
        in order. Scheduled replies stay scheduled. */
    method LoadChat(seed: seq<Message>)
      modifies this
      ensures messages == seed
      ensures persona == old(persona) && inputValue == old(inputValue)
      ensures selectedProduct == old(selectedProduct) && pending == old(pending)
    {
      messages := seed;
    }
  }

  /** A send followed by the firing of its own timer, with no other reply
      outstanding: the history grows by two, the user's message first and
      the persona's reply to it second, and nothing is left scheduled. */
  method SendThenReply(session: ChatSession, sendTime: nat, replyTime: nat)
    requires session.pending == []
    requires ShouldSend(session.inputValue, session.persona)
    modifies session
    ensures |session.messages| == |old(session.messages)| + 2
    ensures session.messages[..|old(session.messages)|] == old(session.messages)
    ensures var u := session.messages[|old(session.messages)|];
      u.isUser && u.content == old(session.inputValue) && u.timestamp == sendTime
    ensures var a := session.messages[|old(session.messages)| + 1];
      !a.isUser && a.content == GeneratePersonaResponse(old(session.inputValue), old(session.persona).value, old(session.selectedProduct))
    ensures session.pending == [] && session.inputValue == ""
  {
    var sent := session.SendMessage(sendTime);
    session.DeliverReply(replyTime);
  }

  /** A reply still scheduled when a saved chat is loaded lands after the
      saved messages: nothing cancels the timer. */
  method ReplyAfterLoad(session: ChatSession, seed: seq<Message>, now: nat)
    requires |session.pending| == 1
    modifies session
    ensures session.messages == seed + [ReplyMessage(old(session.pending)[0], now)]
    ensures session.pending == []
  {
    session.LoadChat(seed);
    session.DeliverReply(now);
  }
}
