/** The request envelopes, each reduced to its ordered list of meaningful
    fields: the security token, the fixed `datosCabecera` block and the
    operation's own entries. */
module Envelopes {
  import opened Wrappers
  import opened Text
  import opened Xml
  import opened SessionState
  import opened Mappers

  const BaseEndpoint := "https://www.openbank.mobi"
  const LoginEndpoint := "/OPBMOV_IPAD_NSeg_ENS/ws/QUIZ_Def_Listener"
  const ProductsEndpoint := "/OPB_BAMOBI_WS_ENS/ws/BAMOBI_WS_Def_Listener"
  const AccountEndpoint := "/OPB_BAMOBI_WS_ENS/ws/BAMOBI_WS_Def_Listener"

  /** A calendar date as the client receives it. */
  datatype Date = Date(year: nat, month: nat, day: nat)

  /** One leaf element of an envelope: `<tag>text</tag>`. */
  datatype Field = Field(tag: string, text: string)

  /** The three envelopes the client posts, with the values each carries, in
      document order. `importeCta` and `repo` are raw markup copied from the
      previous response (empty when absent). */
  datatype Envelope =
    | LoginRequest(user: string, documentType: string, password: string, userAddress: string)
    | ProductsRequest(token: string, cabecera: seq<Field>)
    | AccountRequest(
        token: string,
        cabecera: seq<Field>,
        datosConexion: string,
        contratoID: string,
        fechaDesde: seq<Field>,
        fechaHasta: seq<Field>,
        importeCta: string,
        esUnaPaginacion: string,
        repo: string)

  /** The SOAP operation each envelope's body invokes. */
  function Operation(e: Envelope): string {
    match e
    case LoginRequest(_, _, _, _) => "authenticateCredential"
    case ProductsRequest(_, _) => "obtenerPosGlobal_LIP"
    case AccountRequest(_, _, _, _, _, _, _, _, _) => "listaMovCuentasFechas_LIP"
  }

  /** The address each envelope is posted to. */
  function Url(e: Envelope): string {
    match e
    case LoginRequest(_, _, _, _) => BaseEndpoint + LoginEndpoint
    case ProductsRequest(_, _) => BaseEndpoint + ProductsEndpoint
    case AccountRequest(_, _, _, _, _, _, _, _, _) => BaseEndpoint + AccountEndpoint
  }

  /** `xml_datos_cabecera`: protocol version 3.0.4, an Android terminal and
      Spanish (Spain) as language, in that order. */
  function DatosCabecera(): (r: seq<Field>)
    ensures |r| == 3
    ensures r[0].tag == "version" && r[1].tag == "terminalID" && r[2].tag == "idioma"
    ensures r[0].text == "3.0.4" && r[1].text == "Android" && r[2].text == "es-ES"
  {
    [Field("version", "3.0.4"), Field("terminalID", "Android"), Field("idioma", "es-ES")]
  }

  /** `#{@token_credential}`: the token, or nothing before one was received. */
  function TokenText(s: Session): (r: string)
    ensures s.token.Some? ==> r == s.token.value
    ensures s.token.None? ==> r == ""
  {
    s.token.GetOr("")
  }

  /** The token a request carries after a response is the one that response
      sent, stripped, when it sent one; otherwise the earlier one. */
  lemma TokenTextAfterResponse(s: Session, doc: Document)
    ensures TokenPath in doc.root.at ==> StrippedFrom(TokenText(Updated(s, doc)), doc.root.at[TokenPath].content)
    ensures TokenPath !in doc.root.at ==> TokenText(Updated(s, doc)) == TokenText(s)
  {
  }

  /** `format_user`: the user identifier in capitals; formatting is stable. */
  function FormatUser(user: string): (r: string)
    ensures |r| == |user|
    ensures forall i :: 0 <= i < |r| ==> !IsLower(r[i])
    ensures forall i :: 0 <= i < |r| && IsLower(user[i]) ==> r[i] as int == user[i] as int - 32
    ensures forall i :: 0 <= i < |r| && !IsLower(user[i]) ==> r[i] == user[i]
    ensures Upcase(r) == r
  {
    Upcase(user)
  }

  /** `xml_login`: an `authenticateCredential` call posted to the login
      listener, carrying the user, document type `N`, the password and the
      caller's public address; it carries no token. */
  function XmlLogin(user: string, password: string, publicIp: string): (r: Envelope)
    ensures r.LoginRequest? && Operation(r) == "authenticateCredential"
    ensures Url(r) == BaseEndpoint + LoginEndpoint
    ensures r.user == user && r.documentType == "N" && r.password == password && r.userAddress == publicIp
  {
    LoginRequest(user, "N", password, publicIp)
  }

  /** `xml_products`: an `obtenerPosGlobal_LIP` call posted to the banking
      listener with the session's current token and the fixed header. */
  function XmlProducts(s: Session): (r: Envelope)
    ensures r.ProductsRequest? && Operation(r) == "obtenerPosGlobal_LIP"
    ensures Url(r) == BaseEndpoint + ProductsEndpoint
    ensures r.token == TokenText(s) && r.cabecera == DatosCabecera()
  {
    ProductsRequest(TokenText(s), DatosCabecera())
  }

  /** `xml_date`: day, month and year as three separate elements, in that
      order, each the number's decimal text; the date can be read back. */
  function XmlDate(d: Date): (r: seq<Field>)
    ensures |r| == 3 && r[0].tag == "dia" && r[1].tag == "mes" && r[2].tag == "anyo"
    ensures r[0].text == Decimal(d.day) && r[1].text == Decimal(d.month) && r[2].text == Decimal(d.year)
    ensures ReadDate(r) == Some(d)
  {
    DecimalRoundTrip(d.day);
    DecimalRoundTrip(d.month);
    DecimalRoundTrip(d.year);
    [Field("dia", Decimal(d.day)), Field("mes", Decimal(d.month)), Field("anyo", Decimal(d.year))]
  }

  /** The date a `dia`/`mes`/`anyo` triple of decimal fields stands for. */
  function ReadDate(fields: seq<Field>): Option<Date> {
    if |fields| == 3 && fields[0].tag == "dia" && fields[1].tag == "mes" && fields[2].tag == "anyo"
       && AllDigits(fields[0].text) && AllDigits(fields[1].text) && AllDigits(fields[2].text)
    then Some(Date(ParseDecimal(fields[2].text), ParseDecimal(fields[1].text), ParseDecimal(fields[0].text)))
    else None
  }

  /** `xml_account`: a transaction-page request. It needs the captured user
      data (dereferencing nil raises otherwise); it marks itself a continuation
      exactly when a `repo` cursor is given, and copies the cursor nodes, the
      contract, the dates and the session's token. */
  function XmlAccount(s: Session, account: Account, fromDate: Date, toDate: Date,
                      repo: Option<Element>, importeCta: Option<Element>): (r: Result<Envelope, Failure>)
    ensures r.Ok? <==> s.userData.Some?
    ensures r.Err? ==> r.error == MissingNode(UserDataPath)
    ensures r.Ok? ==> r.value.AccountRequest? && Operation(r.value) == "listaMovCuentasFechas_LIP"
    ensures r.Ok? ==> Url(r.value) == BaseEndpoint + AccountEndpoint
    ensures r.Ok? ==> r.value.esUnaPaginacion in {"S", "N"} && (r.value.esUnaPaginacion == "S" <==> repo.Some?)
    ensures r.Ok? ==> (repo.None? ==> r.value.repo == "") && (repo.Some? ==> r.value.repo == repo.value.markup)
    ensures r.Ok? ==> (importeCta.None? ==> r.value.importeCta == "") && (importeCta.Some? ==> r.value.importeCta == importeCta.value.markup)
    ensures r.Ok? ==> r.value.token == TokenText(s) && r.value.cabecera == DatosCabecera()
    ensures r.Ok? ==> r.value.datosConexion == s.userData.value.inner && r.value.contratoID == account.contractId
    ensures r.Ok? ==> ReadDate(r.value.fechaDesde) == Some(fromDate) && ReadDate(r.value.fechaHasta) == Some(toDate)
  {
    var isPagination := if repo.Some? then "S" else "N";
    match s.userData
    case None => Err(MissingNode(UserDataPath))
    case Some(userData) =>
      Ok(AccountRequest(
        token := TokenText(s),
        cabecera := DatosCabecera(),
        datosConexion := userData.inner,
        contratoID := account.contractId,
        fechaDesde := XmlDate(fromDate),
        fechaHasta := XmlDate(toDate),
        importeCta := Interpolate(importeCta),
        esUnaPaginacion := isPagination,
        repo := Interpolate(repo)))
  }
}
