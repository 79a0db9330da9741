/** The login and registration rules of the landing page, src/pages/Home.tsx: document
    cleaning and length validation, the lookup by cleaned document, and the construction of a
    new client record from the registration form. The page state is the class `HomePage`;
    `onLogin` together with the navigation it triggers is recorded in its `session` field. */
module Home {
  import opened Domain
  import opened Text
  import Seqs
  import ClientService

  // ---------------------------------------------------------------------------------------
  // Document cleaning and validity

  /** `raw.replace(/\D/g, '')`: every character that is not an ASCII digit deleted. */
  function CleanDocument(raw: string): (cleaned: string)
    ensures AllDigits(cleaned)
    ensures |cleaned| <= |raw|
    ensures forall i :: 0 <= i < |raw| && IsDigit(raw[i]) ==> raw[i] in cleaned
  {
    Seqs.Filter(raw, IsDigit)
  }

  /** The digits are kept in their original order, each as often as it occurs. */
  lemma CleanKeepsDigitsInOrder(raw: string, c: char)
    ensures Seqs.IsSubsequence(CleanDocument(raw), raw)
    ensures multiset(CleanDocument(raw))[c] == if IsDigit(c) then multiset(raw)[c] else 0
  {
    Seqs.FilterIsSubsequence(raw, IsDigit);
    Seqs.FilterCount(raw, IsDigit, c);
  }

  /** Cleaning works piecewise: the cleaned concatenation is the concatenation of the cleaned parts. */
  lemma CleanConcat(a: string, b: string)
    ensures CleanDocument(a + b) == CleanDocument(a) + CleanDocument(b)
  {
    Seqs.FilterConcat(a, b, IsDigit);
  }

  /** A document typed as digits only is left as it is. */
  lemma CleanDigitsUnchanged(s: string)
    requires AllDigits(s)
    ensures CleanDocument(s) == s
  {
    Seqs.FilterKeepsAll(s, IsDigit);
  }

  lemma CleanIdempotent(raw: string)
    ensures CleanDocument(CleanDocument(raw)) == CleanDocument(raw)
  {
    CleanDigitsUnchanged(CleanDocument(raw));
  }

  /** The number of digits each document type has: 11 for a CPF, 14 for a CNPJ. */
  function RequiredLength(t: DocumentType): (n: nat)
    ensures n == 11 <==> t == CPF
    ensures n == 14 <==> t == CNPJ
  {
    match t
    case CPF => 11
    case CNPJ => 14
  }

  function TypeName(t: DocumentType): string {
    match t
    case CPF => "CPF"
    case CNPJ => "CNPJ"
  }

  function LengthText(t: DocumentType): string {
    match t
    case CPF => "11"
    case CNPJ => "14"
  }

  /** Validity is by length alone; check digits are not examined. */
  predicate IsValidDocument(t: DocumentType, cleaned: string)
    ensures IsValidDocument(t, cleaned) <==> (t == CPF && |cleaned| == 11) || (t == CNPJ && |cleaned| == 14)
  {
    |cleaned| == RequiredLength(t)
  }

  // ---------------------------------------------------------------------------------------
  // Login

  function InvalidLoginMessage(t: DocumentType): string {
    "Digite um " + TypeName(t) + " válido (" + LengthText(t) + " dígitos)"
  }

  const NotFoundMessage := "Cliente não encontrado. Verifique o CPF ou CNPJ."
  const LookupFailedMessage := "Erro ao buscar cliente. Tente novamente mais tarde."

  datatype LoginOutcome = InvalidDocument | LoggedIn(client: Client) | NotFound | LookupFailed

  /** What pressing "Entrar" leads to, given the outcome of fetching the client list. */
  function Login(raw: string, t: DocumentType, directory: Result<seq<Client>>): (o: LoginOutcome)
    ensures o.InvalidDocument? <==> !IsValidDocument(t, CleanDocument(raw))
    ensures o.LookupFailed? <==> IsValidDocument(t, CleanDocument(raw)) && directory.Err?
    ensures o.LoggedIn? ==>
      && IsValidDocument(t, CleanDocument(raw)) && directory.Ok?
      && o.client in directory.value && o.client.documentId == CleanDocument(raw)
    ensures o.NotFound? <==>
      && IsValidDocument(t, CleanDocument(raw)) && directory.Ok?
      && forall i :: 0 <= i < |directory.value| ==> directory.value[i].documentId != CleanDocument(raw)
  {
    var cleaned := CleanDocument(raw);
    if !IsValidDocument(t, cleaned) then InvalidDocument
    else match ClientService.FetchClientByDocumentId(directory, cleaned)
      case Err(_) => LookupFailed
      case Ok(None) => NotFound
      case Ok(Some(c)) => LoggedIn(c)
  }

  /** Punctuation in the typed document does not matter: the raw input and its cleaned form
      log in alike, because only the cleaned document reaches the lookup. */
  lemma LoginIgnoresFormatting(raw: string, t: DocumentType, directory: Result<seq<Client>>)
    ensures Login(raw, t, directory) == Login(CleanDocument(raw), t, directory)
  {
    CleanIdempotent(raw);
  }

  /** The error line the page shows after a login attempt ("" when the client logged in). */
  function LoginError(o: LoginOutcome, t: DocumentType): (msg: string)
    ensures msg == "" <==> o.LoggedIn?
  {
    match o
    case InvalidDocument => InvalidLoginMessage(t)
    case LoggedIn(_) => ""
    case NotFound => NotFoundMessage
    case LookupFailed => LookupFailedMessage
  }

  // ---------------------------------------------------------------------------------------
  // Registration

  /** The registration form, a client record without its id. */
  datatype ClientForm = ClientForm(
    name: string,
    documentId: string,
    documentType: DocumentType,
    planType: PlanType,
    balance: Option<Cents>,
    active: bool)

  const DefaultForm := ClientForm("", "", CPF, Prepaid, Some(0), true)

  /** The credit limit of a new postpaid client: R$ 100,00. */
  const PostpaidLimit: Cents := 10000

  const NameRequiredMessage := "Nome é obrigatório"
  const CreateFailedMessage := "Erro ao criar conta"

  function InvalidRegistrationMessage(t: DocumentType): string {
    TypeName(t) + " inválido (" + LengthText(t) + " dígitos)"
  }

  datatype Registration = NameMissing | BadDocument | Ready(cleaned: string)

  /** The checks `handleCreateAccount` makes before creating anything, in their order. */
  function ValidateRegistration(form: ClientForm, t: DocumentType): (v: Registration)
    ensures form.name == "" ==> v == NameMissing
    ensures v.BadDocument? <==> form.name != "" && !IsValidDocument(t, CleanDocument(form.documentId))
    ensures v.Ready? <==> form.name != "" && IsValidDocument(t, CleanDocument(form.documentId))
    ensures v.Ready? ==> v.cleaned == CleanDocument(form.documentId) && AllDigits(v.cleaned)
  {
    if form.name == "" then NameMissing
    else
      var cleaned := CleanDocument(form.documentId);
      if !IsValidDocument(t, cleaned) then BadDocument else Ready(cleaned)
  }

  /** The record sent for creation: the form, the document type chosen by the radio buttons,
      a generated id, and the balance or the limit that the plan calls for. */
  function NewClientRecord(form: ClientForm, t: DocumentType, id: string): (c: Client)
    ensures c.id == id && c.documentType == t
    ensures c.name == form.name && c.documentId == form.documentId
    ensures c.planType == form.planType && c.active == form.active
    ensures c.balance.Some? <==> c.planType == Prepaid
    ensures c.limit.Some? <==> c.planType == Postpaid
    ensures c.planType == Prepaid ==> c.balance.value == form.balance.GetOr(0)
    ensures c.planType == Postpaid ==> c.limit.value == PostpaidLimit
  {
    Client(
      id, form.name, form.documentId, t, form.planType,
      if form.planType == Prepaid then Some(form.balance.GetOr(0)) else None,
      if form.planType == Postpaid then Some(PostpaidLimit) else None,
      form.active)
  }

  /** The answer of the creation request: an HTTP status, or the message of the error thrown. */
  datatype CreateResponse = Responded(status: int) | Threw(message: string)

  /** Registration succeeded: the form passed validation and the creation request answered 201. */
  predicate AccountCreated(v: Registration, response: CreateResponse) {
    v.Ready? && response == Responded(201)
  }

  /** The error line the page shows after "Criar Conta" ("" on success). */
  function RegistrationError(v: Registration, response: CreateResponse, t: DocumentType): (msg: string)
    ensures AccountCreated(v, response) ==> msg == ""
    ensures msg == "" ==> AccountCreated(v, response) || (v.Ready? && response == Threw(""))
    ensures v.NameMissing? ==> msg == NameRequiredMessage
    ensures v.Ready? && response.Responded? && response.status != 201 ==> msg == CreateFailedMessage
  {
    match v
    case NameMissing => NameRequiredMessage
    case BadDocument => InvalidRegistrationMessage(t)
    case Ready(_) =>
      match response
      case Threw(m) => m
      case Responded(status) => if status != 201 then CreateFailedMessage else ""
  }

  /** A failed login names its cause: two failed outcomes show the same error line only when
      they are the same outcome. */
  lemma LoginErrorIdentifiesOutcome(o1: LoginOutcome, o2: LoginOutcome, t: DocumentType)
    requires !o1.LoggedIn? && LoginError(o1, t) == LoginError(o2, t)
    ensures o1 == o2
  {
    assert InvalidLoginMessage(t)[0] == 'D';
    assert |NotFoundMessage| != |LookupFailedMessage|;
  }

  /** The part of the page state that "Criar Conta" reads and writes. */
  datatype RegistrationState = RegistrationState(
    showModal: bool,
    newClient: ClientForm,
    documentType: DocumentType,
    error: string)

  /** The state after "Criar Conta", and the record sent for creation (`None` when
      validation stopped the attempt before any request). */
  datatype CreateStep = CreateStep(after: RegistrationState, request: Option<Client>)

  /** One press of "Criar Conta", given the id the clock produced and the answer of the
      creation request. */
  function CreateAccount(s: RegistrationState, id: string, response: CreateResponse): (r: CreateStep)
    ensures r.request.Some? <==> s.newClient.name != "" && IsValidDocument(s.documentType, CleanDocument(s.newClient.documentId))
    ensures r.request.Some? ==> r.request.value == NewClientRecord(s.newClient, s.documentType, id)
    ensures s.newClient.name == "" ==> r.after == s.(error := NameRequiredMessage)
    ensures r.after == RegistrationState(false, DefaultForm, CPF, "")
         || r.after == s.(error := r.after.error)
    ensures r.after.newClient == DefaultForm && !r.after.showModal && r.after.error == ""
         <== r.request.Some? && response == Responded(201)
  {
    var v := ValidateRegistration(s.newClient, s.documentType);
    var request := if v.Ready? then Some(NewClientRecord(s.newClient, s.documentType, id)) else None;
    if AccountCreated(v, response) then CreateStep(RegistrationState(false, DefaultForm, CPF, ""), request)
    else CreateStep(s.(error := RegistrationError(v, response, s.documentType)), request)
  }

  /** As written, the page calls `clientService.createClient`, which the client service does
      not define, so the call throws a TypeError whose message `m` becomes the error line.
      Every attempt then ends the same way, whatever the form holds: the record is built,
      nothing is created, and the dialog stays open with the form as typed. */
  lemma CreateAccountAsWrittenKeepsForm(s: RegistrationState, id: string, m: string)
    ensures var r := CreateAccount(s, id, Threw(m));
      && r.after.showModal == s.showModal
      && r.after.newClient == s.newClient
      && r.after.documentType == s.documentType
      && (r.request.Some? ==> r.after.error == m)
  {
    var v := ValidateRegistration(s.newClient, s.documentType);
    assert !AccountCreated(v, Threw(m));
  }

  /** With a creation request that answers 201, as the page evidently intends, a valid form is
      sent and the dialog closes with the form back at its defaults and no error shown. */
  lemma {:induction false} CreateAccountResetsOnCreated(s: RegistrationState, id: string)
    requires s.newClient.name != "" && IsValidDocument(s.documentType, CleanDocument(s.newClient.documentId))
    ensures var r := CreateAccount(s, id, Responded(201));
      && r.request == Some(NewClientRecord(s.newClient, s.documentType, id))
      && r.after == RegistrationState(false, DefaultForm, CPF, "")
  {
    assert ValidateRegistration(s.newClient, s.documentType).Ready?;
  }

  // ---------------------------------------------------------------------------------------
  // The page

  class HomePage {
    var doc: string
    var error: string
    var showModal: bool
    var newClient: ClientForm
    var documentType: DocumentType
    /** The client handed to `onLogin`, after which the page navigates to the conversations. */
    var session: Option<Client>

    /** The document field only ever receives cleaned text, and the radio buttons keep the
        form's document type equal to the page's. */
    ghost predicate Valid()
      reads this
    {
      AllDigits(newClient.documentId) && newClient.documentType == documentType
    }

    /** The registration dialog's part of the page state. */
    function RegState(): RegistrationState
      reads this
    {
      RegistrationState(showModal, newClient, documentType, error)
    }

    constructor ()
      ensures Valid()
      ensures doc == "" && error == "" && !showModal
      ensures newClient == DefaultForm && documentType == CPF && session == None
    {
      doc := "";
      error := "";
      showModal := false;
      newClient := DefaultForm;
      documentType := CPF;
      session := None;
    }

    /** Typing in the login field. */
    method EditLoginDocument(text: string)
      requires Valid()
      modifies this
      ensures Valid()
      ensures doc == text
      ensures error == old(error) && showModal == old(showModal) && newClient == old(newClient)
      ensures documentType == old(documentType) && session == old(session)
    {
      doc := text;
    }

    /** "Criar nova conta": the registration dialog opens and the error line is cleared. */
    method OpenModal()
      requires Valid()
      modifies this
      ensures Valid()
      ensures showModal && error == ""
      ensures doc == old(doc) && newClient == old(newClient)
      ensures documentType == old(documentType) && session == old(session)
    {
      showModal := true;
      error := "";
    }

    /** "Cancelar": the dialog closes, the form keeps what was typed. */
    method CancelModal()
      requires Valid()
      modifies this
      ensures Valid()
      ensures !showModal && error == ""
      ensures doc == old(doc) && newClient == old(newClient)
      ensures documentType == old(documentType) && session == old(session)
    {
      showModal := false;
      error := "";
    }

    /** The CPF/CNPJ radio buttons set both the page's and the form's document type. */
    method SelectDocumentType(t: DocumentType)
      requires Valid()
      modifies this
      ensures Valid()
      ensures documentType == t && newClient == old(newClient).(documentType := t)
      ensures doc == old(doc) && error == old(error) && showModal == old(showModal) && session == old(session)
    {
      documentType := t;
      newClient := newClient.(documentType := t);
    }

    method EditName(name: string)
      requires Valid()
      modifies this
      ensures Valid()
      ensures newClient == old(newClient).(name := name)
      ensures doc == old(doc) && error == old(error) && showModal == old(showModal)
      ensures documentType == old(documentType) && session == old(session)
    {
      newClient := newClient.(name := name);
    }

    /** The registration document field stores the typed text already cleaned. */
    method EditDocument(text: string)
      requires Valid()
      modifies this
      ensures Valid()
      ensures newClient == old(newClient).(documentId := CleanDocument(text))
      ensures doc == old(doc) && error == old(error) && showModal == old(showModal)
      ensures documentType == old(documentType) && session == old(session)
    {
      newClient := newClient.(documentId := CleanDocument(text));
    }

    method SelectPlan(p: PlanType)
      requires Valid()
      modifies this
      ensures Valid()
      ensures newClient == old(newClient).(planType := p)
      ensures doc == old(doc) && error == old(error) && showModal == old(showModal)
      ensures documentType == old(documentType) && session == old(session)
    {
      newClient := newClient.(planType := p);
    }

    /** The initial-balance field; `None` stands for a value that is not a number. */
    method EditBalance(balance: Option<Cents>)
      requires Valid()
      modifies this
      ensures Valid()
      ensures newClient == old(newClient).(balance := balance)
      ensures doc == old(doc) && error == old(error) && showModal == old(showModal)
      ensures documentType == old(documentType) && session == old(session)
    {
      newClient := newClient.(balance := balance);
    }

    /** `handleLogin`. `directory` is the outcome of fetching the client list; `query` is the
        document the lookup was called with, `None` when it was not called at all. */
    method HandleLogin(directory: Result<seq<Client>>) returns (query: Option<string>)
      requires Valid()
      modifies this
      ensures Valid()
      ensures doc == old(doc) && showModal == old(showModal)
      ensures newClient == old(newClient) && documentType == old(documentType)
      ensures query == if IsValidDocument(documentType, CleanDocument(doc)) then Some(CleanDocument(doc)) else None
      ensures error == LoginError(Login(doc, documentType, directory), documentType)
      ensures session == match Login(doc, documentType, directory)
                         case LoggedIn(c) => Some(c)
                         case _ => old(session)
    {
      error := "";
      var cleaned := CleanDocument(doc);
      var isValid := IsValidDocument(documentType, cleaned);
      if !isValid {
        error := InvalidLoginMessage(documentType);
        query := None;
        return;
      }
      query := Some(cleaned);
      var client := ClientService.FetchClientByDocumentId(directory, cleaned);
      match client {
        case Err(_) =>
          error := LookupFailedMessage;
        case Ok(None) =>
          error := NotFoundMessage;
        case Ok(Some(c)) =>
          session := Some(c);
      }
    }

    /** `handleCreateAccount`. `generatedId` stands for the clock-derived id and `response`
        for the answer of the creation request; `request` is the record sent for creation,
        `None` when validation stopped the attempt first. */
    method HandleCreateAccount(generatedId: string, response: CreateResponse) returns (request: Option<Client>)
      requires Valid()
      modifies this
      ensures Valid()
      ensures doc == old(doc) && session == old(session)
      ensures request.Some? ==> request.value.documentId == CleanDocument(old(newClient).documentId)
      ensures var step := CreateAccount(old(RegState()), generatedId, response);
        RegState() == step.after && request == step.request
    {
      error := "";
      request := None;
      if newClient.name == "" {
        error := NameRequiredMessage;
        return;
      }
      var cleaned := CleanDocument(newClient.documentId);
      if !IsValidDocument(documentType, cleaned) {
        error := InvalidRegistrationMessage(documentType);
        return;
      }
      CleanDigitsUnchanged(newClient.documentId);
      var clientData := NewClientRecord(newClient, documentType, generatedId);
      request := Some(clientData);
      match response {
        case Threw(m) =>
          error := m;
        case Responded(status) =>
          if status != 201 {
            error := CreateFailedMessage;
          } else {
            showModal := false;
            newClient := DefaultForm;
            documentType := CPF;
            error := "";
          }
      }
    }
  }
}
