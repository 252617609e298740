/** The session the client carries between requests: two server-issued
    credentials and the user-data block captured at login. */
module SessionState {
  import opened Wrappers
  import opened Text
  import opened Xml

  const CookiePath: Path := "//cookieCredential"
  const TokenPath: Path := "//tokenCredential"
  const UserDataPath: Path := "//methodResult/datosUsuario"

  /** `@cookie_credential`, `@token_credential` and `@user_data`; each is nil
      until a response first carries it. */
  datatype Session = Session(cookie: Option<string>, token: Option<string>, userData: Option<Element>)

  /** The state of a freshly constructed client, before the login response. */
  const Initial := Session(None, None, None)

  /** True when the response carries none of the three session fields. */
  predicate Silent(doc: Document) {
    CookiePath !in doc.root.at && TokenPath !in doc.root.at && UserDataPath !in doc.root.at
  }

  /** The session after one response (`parse_context`): each field takes the
      value the response carries and keeps its previous value when the response
      does not carry it. No response clears a field. */
  function Updated(s: Session, doc: Document): (r: Session)
    ensures CookiePath in doc.root.at ==> r.cookie.Some? && StrippedFrom(r.cookie.value, doc.root.at[CookiePath].content)
    ensures CookiePath !in doc.root.at ==> r.cookie == s.cookie
    ensures TokenPath in doc.root.at ==> r.token.Some? && StrippedFrom(r.token.value, doc.root.at[TokenPath].content)
    ensures TokenPath !in doc.root.at ==> r.token == s.token
    ensures UserDataPath in doc.root.at ==> r.userData == Some(doc.root.at[UserDataPath])
    ensures UserDataPath !in doc.root.at ==> r.userData == s.userData
    ensures s.cookie.Some? ==> r.cookie.Some?
    ensures s.token.Some? ==> r.token.Some?
    ensures s.userData.Some? ==> r.userData.Some?
  {
    Session(
      ValueAtOr(doc.root, CookiePath, s.cookie),
      ValueAtOr(doc.root, TokenPath, s.token),
      AtXPath(doc.root, UserDataPath).Or(s.userData))
  }

  /** A response that carries no session field leaves the session as it was. */
  lemma SilentResponseKeepsSession(s: Session, doc: Document)
    requires Silent(doc)
    ensures Updated(s, doc) == s
  {
  }

  /** Seeing the same response twice is seeing it once. */
  lemma UpdatedIdempotent(s: Session, doc: Document)
    ensures Updated(Updated(s, doc), doc) == Updated(s, doc)
  {
  }

  /** A response that carries all three fields fixes the session whatever came before. */
  lemma FullResponseOverrides(s1: Session, s2: Session, doc: Document)
    requires CookiePath in doc.root.at && TokenPath in doc.root.at && UserDataPath in doc.root.at
    ensures Updated(s1, doc) == Updated(s2, doc)
  {
  }

  /** The session after a sequence of responses, oldest first. */
  function Replay(s: Session, docs: seq<Document>): Session {
    if docs == [] then s else Updated(Replay(s, docs[..|docs| - 1]), docs[|docs| - 1])
  }

  /** Over any number of responses, a field once captured is never cleared. */
  lemma {:induction false} ReplayNeverClears(s: Session, docs: seq<Document>)
    ensures s.cookie.Some? ==> Replay(s, docs).cookie.Some?
    ensures s.token.Some? ==> Replay(s, docs).token.Some?
    ensures s.userData.Some? ==> Replay(s, docs).userData.Some?
  {
    if docs != [] {
      ReplayNeverClears(s, docs[..|docs| - 1]);
    }
  }

  /** Responses that carry no session field leave the session as it was. */
  lemma {:induction false} ReplaySilent(s: Session, docs: seq<Document>)
    requires forall k :: 0 <= k < |docs| ==> Silent(docs[k])
    ensures Replay(s, docs) == s
  {
    if docs != [] {
      ReplaySilent(s, docs[..|docs| - 1]);
    }
  }

  /** The token after a sequence of responses is the one the last response
      carrying a token sent. */
  lemma {:induction false} ReplayTokenFromLastSender(s: Session, docs: seq<Document>, k: nat)
    requires k < |docs| && TokenPath in docs[k].root.at
    requires forall j :: k < j < |docs| ==> TokenPath !in docs[j].root.at
    ensures Replay(s, docs).token == Some(Strip(docs[k].root.at[TokenPath].content))
  {
    if k < |docs| - 1 {
      ReplayTokenFromLastSender(s, docs[..|docs| - 1], k);
    }
  }
}
