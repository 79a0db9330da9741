/** The document lookup of src/services/clientService.ts. The HTTP request is not modelled:
    its outcome, the full client list or the error it raised, is a parameter. */
module ClientService {
  import opened Domain
  import opened Text

  /** The error every failed lookup is rethrown as. */
  const LookupError := "Erro ao buscar cliente por documentId."

  /** `clients.find(c => c.documentId === documentId) || null`: the first client, in list
      order, whose stored document equals the argument exactly. */
  function FindByDocumentId(clients: seq<Client>, documentId: string): (r: Option<Client>)
    ensures r.Some? ==> r.value in clients && r.value.documentId == documentId
    ensures r.None? <==> forall i :: 0 <= i < |clients| ==> clients[i].documentId != documentId
  {
    if clients == [] then None
    else if clients[0].documentId == documentId then Some(clients[0])
    else FindByDocumentId(clients[1..], documentId)
  }

  /** When several clients carry the document, the earliest one is returned. */
  lemma {:induction false} FindReturnsEarliest(clients: seq<Client>, documentId: string, k: nat)
    requires k < |clients| && clients[k].documentId == documentId
    requires forall j :: 0 <= j < k ==> clients[j].documentId != documentId
    ensures FindByDocumentId(clients, documentId) == Some(clients[k])
  {
    if k > 0 {
      FindReturnsEarliest(clients[1..], documentId, k - 1);
    }
  }

  /** No normalisation happens here: against a directory that stores digits only, a
      document still holding punctuation or spaces is never found. */
  lemma UnnormalisedDocumentNotFound(clients: seq<Client>, documentId: string)
    requires forall i :: 0 <= i < |clients| ==> AllDigits(clients[i].documentId)
    requires !AllDigits(documentId)
    ensures FindByDocumentId(clients, documentId) == None
  {
  }

  /** `fetchClientByDocumentId`: the fetched list searched as above, or the fixed error when
      the request failed or answered with a non-ok status. A failure is an `Err`, never
      confused with "not found". */
  function FetchClientByDocumentId(fetched: Result<seq<Client>>, documentId: string): (r: Result<Option<Client>>)
    ensures r.Err? <==> fetched.Err?
    ensures r.Err? ==> r.message == LookupError
    ensures r.Ok? && r.value.Some? ==> r.value.value in fetched.value && r.value.value.documentId == documentId
    ensures r.Ok? && r.value.None? ==> forall i :: 0 <= i < |fetched.value| ==> fetched.value[i].documentId != documentId
  {
    match fetched
    case Err(_) => Err(LookupError)
    case Ok(clients) => Ok(FindByDocumentId(clients, documentId))
  }
}
