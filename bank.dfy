/** The Openbank client: a session whose three fields every response may
    update, the account fetch, and the paginated transaction fetch that threads
    each page's cursor into the next request. */
module Openbank {
  import opened Wrappers
  import opened Text
  import opened Xml
  import opened SessionState
  import opened Mappers
  import opened Envelopes

  const RepoPath: Path := "//methodResult/repo"
  const ImporteCtaPath: Path := "//methodResult/importeCta"
  const FinListaPath: Path := "//methodResult/finLista"

  /** The end-of-list marker of a page, `''` when the page has none. */
  function FinLista(doc: Document): string {
    ValueAt(doc.root, FinListaPath, "")
  }

  /** A page asks for another request exactly when its marker is `N`; any
      other marker, and a missing one, ends the fetch. */
  predicate Continues(doc: Document) {
    FinLista(doc) == "N"
  }

  /** The server's answers, in the order of the requests, end the fetch at some point. */
  predicate Finishes(server: seq<Document>) {
    exists k :: 0 <= k < |server| && !Continues(server[k])
  }

  /** How many pages a fetch requests: up to and including the first page
      that does not say `N`. */
  function PageCount(server: seq<Document>): (n: nat)
    requires Finishes(server)
    ensures 1 <= n <= |server|
    ensures !Continues(server[n - 1])
    ensures forall k :: 0 <= k < n - 1 ==> Continues(server[k])
  {
    if !Continues(server[0]) then 1
    else
      assert Finishes(server[1..]) by {
        var k :| 0 <= k < |server| && !Continues(server[k]);
        assert server[1..][k - 1] == server[k];
      }
      1 + PageCount(server[1..])
  }

  /** The cursor the request for page `k` carries: nothing for the first
      page, the `repo` and `importeCta` nodes of page `k - 1` after that. */
  function CursorRepo(server: seq<Document>, k: nat): Option<Element>
    requires k <= |server|
  {
    if k == 0 then None else AtXPath(server[k - 1].root, RepoPath)
  }

  function CursorImporteCta(server: seq<Document>, k: nat): Option<Element>
    requires k <= |server|
  {
    if k == 0 then None else AtXPath(server[k - 1].root, ImporteCtaPath)
  }

  /** The request for page `k` of a fetch started in session `s0`: built from
      the session as the first `k` pages left it and the cursor of page `k - 1`. */
  function PageRequest(s0: Session, account: Account, fromDate: Date, toDate: Date,
                       server: seq<Document>, k: nat): Result<Envelope, Failure>
    requires k <= |server|
  {
    XmlAccount(Replay(s0, server[..k]), account, fromDate, toDate, CursorRepo(server, k), CursorImporteCta(server, k))
  }

  /** The first request of a fetch is not a continuation and carries no cursor. */
  lemma FirstRequestHasNoCursor(s0: Session, account: Account, fromDate: Date, toDate: Date, server: seq<Document>)
    requires s0.userData.Some?
    ensures PageRequest(s0, account, fromDate, toDate, server, 0).Ok?
    ensures var e := PageRequest(s0, account, fromDate, toDate, server, 0).value;
            e.esUnaPaginacion == "N" && e.repo == "" && e.importeCta == ""
  {
  }

  /** Request `k + 1` carries exactly page `k`'s `repo` and `importeCta`, and
      is a continuation exactly when page `k` had a `repo`. */
  lemma NextRequestCarriesCursor(s0: Session, account: Account, fromDate: Date, toDate: Date,
                                 server: seq<Document>, k: nat)
    requires s0.userData.Some? && k < |server|
    ensures PageRequest(s0, account, fromDate, toDate, server, k + 1).Ok?
    ensures var e := PageRequest(s0, account, fromDate, toDate, server, k + 1).value;
            && e.repo == Interpolate(AtXPath(server[k].root, RepoPath))
            && e.importeCta == Interpolate(AtXPath(server[k].root, ImporteCtaPath))
            && (e.esUnaPaginacion == "S" <==> RepoPath in server[k].root.at)
  {
    ReplayNeverClears(s0, server[..k + 1]);
  }

  /** A page that says `N` continues the fetch even when it holds no
      movement: only the marker decides. */
  lemma EmptyPageContinues(page: Document, rest: seq<Document>)
    requires page.movimientos == [] && Continues(page) && Finishes(rest)
    ensures Finishes([page] + rest)
    ensures PageCount([page] + rest) == 1 + PageCount(rest)
  {
    var server := [page] + rest;
    var k :| 0 <= k < |rest| && !Continues(rest[k]);
    assert server[0] == page && server[1..] == rest;
    assert server[k + 1] == rest[k];
  }

  /** A server answering with markers `N`, `N`, `Y` is asked three times. */
  lemma ThreePages(p1: Document, p2: Document, p3: Document)
    requires FinLista(p1) == "N" && FinLista(p2) == "N" && FinLista(p3) == "Y"
    ensures Finishes([p1, p2, p3])
    ensures PageCount([p1, p2, p3]) == 3
  {
    assert [p1, p2, p3][2] == p3;
    assert [p1, p2, p3][1..] == [p2, p3];
    assert [p2, p3][1..] == [p3];
    assert [p2, p3][1] == p3;
    assert [p3][0] == p3;
  }

  /** Fetching page `i` extends the session replay and the collected
      transactions by that page. */
  lemma PageStep(s0: Session, server: seq<Document>, i: nat, account: Account)
    requires i < |server|
    ensures Replay(s0, server[..i + 1]) == Updated(Replay(s0, server[..i]), server[i])
    ensures Collected(server[..i + 1], account) == Collected(server[..i], account) + MapTransactions(server[i].movimientos, account)
  {
    assert server[..i + 1][..i] == server[..i];
    assert server[..i + 1][i] == server[i];
  }

  /** The requests of a fetch so far, as `PageRequest` builds them. */
  predicate SentAsBuilt(s0: Session, account: Account, fromDate: Date, toDate: Date,
                        server: seq<Document>, sent: seq<Envelope>)
    requires |sent| <= |server|
  {
    forall k :: 0 <= k < |sent| ==> PageRequest(s0, account, fromDate, toDate, server, k) == Ok(sent[k])
  }

  lemma SentAsBuiltExtend(s0: Session, account: Account, fromDate: Date, toDate: Date,
                          server: seq<Document>, sent: seq<Envelope>, e: Envelope)
    requires |sent| < |server| && SentAsBuilt(s0, account, fromDate, toDate, server, sent)
    requires PageRequest(s0, account, fromDate, toDate, server, |sent|) == Ok(e)
    ensures SentAsBuilt(s0, account, fromDate, toDate, server, sent + [e])
  {
  }

  /** Every transaction-page request is posted to the banking listener. */
  lemma SentToAccountListener(s0: Session, account: Account, fromDate: Date, toDate: Date,
                              server: seq<Document>, sent: seq<Envelope>)
    requires |sent| <= |server| && SentAsBuilt(s0, account, fromDate, toDate, server, sent)
    ensures forall k :: 0 <= k < |sent| ==> Url(sent[k]) == BaseEndpoint + AccountEndpoint
  {
  }

  /** A client instance: the formatted user, the password and public address
      used at login, and the session fields `parse_context` maintains. */
  class Bank {
    const user: string
    const password: string
    const publicIp: string
    var cookieCredential: Option<string>
    var tokenCredential: Option<string>
    var userData: Option<Element>

    /** The session as the three fields hold it. */
    function Snapshot(): Session
      reads this
    {
      Session(cookieCredential, tokenCredential, userData)
    }

    /** `initialize`: formats the user, then logs in; the public address is
        given, the login response is the server's answer to the login request. */
    constructor (user: string, password: string, publicIp: string, loginResponse: Document)
      ensures this.user == FormatUser(user) && this.password == password && this.publicIp == publicIp
      ensures Snapshot() == Updated(Initial, loginResponse)
    {
      this.user := FormatUser(user);
      this.password := password;
      this.publicIp := publicIp;
      cookieCredential, tokenCredential, userData := None, None, None;
      new;
      var sent := Login(loginResponse);
    }

    /** `login`: posts the login envelope and records what the answer carries. */
    method Login(response: Document) returns (sent: Envelope)
      modifies this
      ensures sent == XmlLogin(user, password, publicIp) && Url(sent) == BaseEndpoint + LoginEndpoint
      ensures Snapshot() == Updated(old(Snapshot()), response)
    {
      sent := XmlLogin(user, password, publicIp);
      var document := ParseContext(response);
    }

    /** `parse_context`: each session field takes what the response carries
        and keeps its value otherwise. */
    method ParseContext(xml: Document) returns (document: Document)
      modifies this
      ensures document == xml
      ensures Snapshot() == Updated(old(Snapshot()), xml)
    {
      document := xml;
      cookieCredential := ValueAtOr(document.root, CookiePath, cookieCredential);
      tokenCredential := ValueAtOr(document.root, TokenPath, tokenCredential);
      userData := AtXPath(document.root, UserDataPath).Or(userData);
    }

    /** `fetch_accounts`: posts the products envelope, records the session
        fields of the answer, then maps its account nodes (which may raise). */
    method FetchAccounts(response: Document) returns (sent: Envelope, accounts: Result<seq<Account>, Failure>)
      modifies this
      ensures sent == XmlProducts(old(Snapshot())) && Url(sent) == BaseEndpoint + ProductsEndpoint
      ensures Snapshot() == Updated(old(Snapshot()), response)
      ensures accounts == MapAccounts(response.cuentas)
    {
      sent := XmlProducts(Snapshot());
      var document := ParseContext(response);
      accounts := MapAccounts(document.cuentas);
    }

    /** `fetch_transactions_for`: request `k` is answered by `server[k]`. The
        fetch fails before posting anything when no user data was captured;
        otherwise it posts exactly `PageCount(server)` requests, each built as
        `PageRequest` says, returns every page's transactions in order and
        leaves the session as those pages updated it. */
    method FetchTransactionsFor(account: Account, startDate: Date, endDate: Date, server: seq<Document>)
      returns (transactions: Result<seq<Transaction>, Failure>, sent: seq<Envelope>)
      requires Finishes(server)
      modifies this
      ensures old(userData).None? ==>
                transactions == Err(MissingNode(UserDataPath)) && sent == [] && Snapshot() == old(Snapshot())
      ensures old(userData).Some? ==>
                var n := PageCount(server);
                && transactions == Ok(Collected(server[..n], account))
                && |sent| == n
                && (forall k :: 0 <= k < n ==> Url(sent[k]) == BaseEndpoint + AccountEndpoint)
                && SentAsBuilt(old(Snapshot()), account, startDate, endDate, server, sent)
                && Snapshot() == Replay(old(Snapshot()), server[..n])
    {
      ghost var s0 := Snapshot();
      ghost var n := PageCount(server);
      var collected: seq<Transaction> := [];
      var endPage := false;
      var repo: Option<Element> := None;
      var importeCta: Option<Element> := None;
      var i := 0;
      sent := [];
      while !endPage
        invariant 0 <= i <= n
        invariant endPage <==> i == n
        invariant Snapshot() == Replay(s0, server[..i])
        invariant i > 0 ==> s0.userData.Some?
        invariant s0.userData.Some? ==> userData.Some?
        invariant collected == Collected(server[..i], account)
        invariant repo == CursorRepo(server, i) && importeCta == CursorImporteCta(server, i)
        invariant |sent| == i
        invariant SentAsBuilt(s0, account, startDate, endDate, server, sent)
        decreases n - i
      {
        var request := XmlAccount(Snapshot(), account, startDate, endDate, repo, importeCta);
        if request.Err? {
          assert server[..i] == [];
          transactions := Err(request.error);
          return;
        }
        assert request == PageRequest(s0, account, startDate, endDate, server, i);
        SentAsBuiltExtend(s0, account, startDate, endDate, server, sent, request.value);
        sent := sent + [request.value];
        var document := ParseContext(server[i]);
        collected := collected + MapTransactions(document.movimientos, account);
        repo := AtXPath(document.root, RepoPath);
        importeCta := AtXPath(document.root, ImporteCtaPath);
        endPage := !(ValueAt(document.root, FinListaPath, "") == "N");
        PageStep(s0, server, i, account);
        i := i + 1;
      }
      SentToAccountListener(s0, account, startDate, endDate, server, sent);
      transactions := Ok(collected);
    }
  }
}
