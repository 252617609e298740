/** The domain mappers: account and transaction records built from response
    nodes, and the amount text handed to `Money.new`. */
module Mappers {
  import opened Wrappers
  import opened Text
  import opened Xml

  const ContractIdOldPath: Path := "contratoIDViejo"
  const AliasPath: Path := "comunes/alias"
  const DescContratoPath: Path := "comunes/descContrato"

  /** An account as `build_account` passes it to the account constructor. */
  datatype Account = Account(
    id: string,
    name: string,
    availableBalance: string,
    balance: string,
    currency: string,
    iban: string,
    description: string,
    contractId: string)

  /** The two arguments of `Money.new`: amount text and currency code. */
  datatype MoneyText = MoneyText(amount: string, currency: string)

  /** A transaction as `build_transaction` passes it to the transaction
      constructor; `effectiveDate` is the `fechaValor` text given to
      `Date.strptime`. */
  datatype Transaction = Transaction(
    account: Account,
    id: string,
    amount: MoneyText,
    description: string,
    effectiveDate: string,
    currency: string,
    balance: MoneyText)

  /** `money(data, currency)`: the amount text loses every thousands-separator
      period and keeps every other character, in order. */
  function Money(data: string, currency: string): (r: MoneyText)
    ensures r.amount == Delete(data, '.') && r.currency == currency
    ensures '.' !in r.amount
    ensures forall c :: c != '.' ==> multiset(r.amount)[c] == multiset(data)[c]
  {
    DeleteCounts(data, '.');
    MoneyText(Delete(data, '.'), currency)
  }

  /** `"1.234"` in euros is handed on as `"1234"`. */
  lemma MoneyExample()
    ensures Money("1.234", "EUR") == MoneyText("1234", "EUR")
  {
  }

  /** The node names the contract that later transaction requests need. */
  predicate HasContract(data: Node) {
    ContractIdOldPath in data.at
  }

  /** `build_account`: fixed field paths, the IBAN without spaces, the alias
      lookup as description (never the contract name: the lookup yields `''`,
      not nil, when the alias is absent), and the children of
      `contratoIDViejo`, whose absence raises. */
  function BuildAccount(data: Node): (r: Result<Account, Failure>)
    ensures r.Err? <==> !HasContract(data)
    ensures r.Err? ==> r.error == MissingNode(ContractIdOldPath)
    ensures r.Ok? ==> r.value.id == ValueAt(data, "comunes/contratoID/NUMERO_DE_CONTRATO", "")
    ensures r.Ok? ==> r.value.name == ValueAt(data, DescContratoPath, "")
    ensures r.Ok? ==> r.value.availableBalance == ValueAt(data, "importeDispAut/IMPORTE", "")
    ensures r.Ok? ==> r.value.balance == ValueAt(data, "impSaldoActual/IMPORTE", "")
    ensures r.Ok? ==> r.value.currency == ValueAt(data, "impSaldoActual/DIVISA", "")
    ensures r.Ok? ==> r.value.iban == Delete(ValueAt(data, "IBAN", ""), ' ') && ' ' !in r.value.iban
    ensures r.Ok? ==> r.value.contractId == data.at[ContractIdOldPath].inner
    ensures r.Ok? ==> r.value.description == ValueAt(data, AliasPath, "")
    ensures r.Ok? && AliasPath !in data.at ==> r.value.description == ""
  {
    match AtXPath(data, ContractIdOldPath)
    case None => Err(MissingNode(ContractIdOldPath))
    case Some(contract) =>
      Ok(Account(
        id := ValueAt(data, "comunes/contratoID/NUMERO_DE_CONTRATO", ""),
        name := ValueAt(data, DescContratoPath, ""),
        availableBalance := ValueAt(data, "importeDispAut/IMPORTE", ""),
        balance := ValueAt(data, "impSaldoActual/IMPORTE", ""),
        currency := ValueAt(data, "impSaldoActual/DIVISA", ""),
        iban := Delete(ValueAt(data, "IBAN", ""), ' '),
        description := ValueAt(data, AliasPath, ""),
        contractId := contract.inner))
  }

  /** Without an alias the description is empty even when the contract has a
      name: the `||` fallback to `descContrato` is never taken. */
  lemma DescriptionIgnoresName(data: Node)
    requires ContractIdOldPath in data.at && AliasPath !in data.at
    requires DescContratoPath in data.at && !AllSpace(data.at[DescContratoPath].content)
    ensures BuildAccount(data).Ok?
    ensures BuildAccount(data).value.description == ""
    ensures BuildAccount(data).value.name != ""
  {
  }

  /** The IBAN `"ES12 3456"` is stored as `"ES123456"`. */
  lemma IbanExample()
    ensures Delete("ES12 3456", ' ') == "ES123456"
  {
    assert "ES12 3456" == "ES12" + [' '] + "3456";
    DeleteSeparator("ES12", "3456", ' ');
  }

  /** An account node whose IBAN reads `"ES12 3456"` yields the IBAN
      `"ES123456"`. */
  lemma AccountIbanExample(data: Node)
    requires HasContract(data)
    requires "IBAN" in data.at && data.at["IBAN"].content == "ES12 3456"
    ensures BuildAccount(data).Ok? && BuildAccount(data).value.iban == "ES123456"
  {
    var s := "ES12 3456";
    assert StrippedAt(s, s, 0);
    StrippedFromUnique(ValueAt(data, "IBAN", ""), s, s);
    IbanExample();
  }

  /** `nodes.map { build_account }`: every node mapped in order, or the failure
      of the first node without `contratoIDViejo`. */
  function MapAccounts(nodes: seq<Node>): (r: Result<seq<Account>, Failure>)
    ensures r.Ok? <==> forall i :: 0 <= i < |nodes| ==> HasContract(nodes[i])
    ensures r.Err? ==> r.error == MissingNode(ContractIdOldPath)
    ensures r.Ok? ==> |r.value| == |nodes|
    ensures r.Ok? ==> forall i :: 0 <= i < |nodes| ==> BuildAccount(nodes[i]) == Ok(r.value[i])
  {
    if nodes == [] then Ok([])
    else
      match BuildAccount(nodes[0])
      case Err(e) => Err(e)
      case Ok(a) =>
        match MapAccounts(nodes[1..])
        case Err(e) => Err(e)
        case Ok(rest) => Ok([a] + rest)
  }

  /** `build_transaction`: fixed field paths, both amounts through `money`,
      the movement's currency for the amount and the record. */
  function BuildTransaction(data: Node, account: Account): (r: Transaction)
    ensures r.account == account
    ensures r.currency == r.amount.currency == ValueAt(data, "importe/DIVISA", "")
    ensures '.' !in r.amount.amount && '.' !in r.balance.amount
    ensures r.id == ValueAt(data, "numeroMovimiento", "")
    ensures r.effectiveDate == ValueAt(data, "fechaValor", "")
    ensures r.description == ValueAt(data, "descripcion", "")
    ensures r.amount == Money(ValueAt(data, "importe/IMPORTE", ""), r.currency)
    ensures r.balance == Money(ValueAt(data, "importeSaldo/IMPORTE", ""), ValueAt(data, "importeSaldo/DIVISA", ""))
  {
    var currency := ValueAt(data, "importe/DIVISA", "");
    var balance := Money(ValueAt(data, "importeSaldo/IMPORTE", ""), ValueAt(data, "importeSaldo/DIVISA", ""));
    Transaction(
      account := account,
      id := ValueAt(data, "numeroMovimiento", ""),
      amount := Money(ValueAt(data, "importe/IMPORTE", ""), currency),
      description := ValueAt(data, "descripcion", ""),
      effectiveDate := ValueAt(data, "fechaValor", ""),
      currency := currency,
      balance := balance)
  }

  /** `nodes.map { build_transaction }`: one transaction per node, in node order. */
  function MapTransactions(nodes: seq<Node>, account: Account): (r: seq<Transaction>)
    ensures |r| == |nodes|
    ensures forall i :: 0 <= i < |nodes| ==> r[i] == BuildTransaction(nodes[i], account)
  {
    seq(|nodes|, i requires 0 <= i < |nodes| => BuildTransaction(nodes[i], account))
  }

  /** The transactions of a run of pages: each page's movements mapped, pages
      concatenated in fetch order. */
  function Collected(pages: seq<Document>, account: Account): seq<Transaction> {
    if pages == [] then []
    else Collected(pages[..|pages| - 1], account) + MapTransactions(pages[|pages| - 1].movimientos, account)
  }

  /** The number of movement nodes over a run of pages. */
  function MovementCount(pages: seq<Document>): nat {
    if pages == [] then 0 else MovementCount(pages[..|pages| - 1]) + |pages[|pages| - 1].movimientos|
  }

  /** Collecting two runs of pages is collecting each and concatenating. */
  lemma {:induction false} CollectedConcat(p1: seq<Document>, p2: seq<Document>, account: Account)
    ensures Collected(p1 + p2, account) == Collected(p1, account) + Collected(p2, account)
  {
    if p2 == [] {
      assert p1 + p2 == p1;
    } else {
      var init, last := p2[..|p2| - 1], p2[|p2| - 1];
      var q := p1 + p2;
      assert q[..|q| - 1] == p1 + init;
      assert q[|q| - 1] == last;
      CollectedConcat(p1, init, account);
      var m := MapTransactions(last.movimientos, account);
      var a, b := Collected(p1, account), Collected(init, account);
      calc {
        Collected(q, account);
        Collected(p1 + init, account) + m;
        (a + b) + m;
        { ConcatAssoc(a, b, m); }
        a + (b + m);
        a + Collected(p2, account);
      }
    }
  }

  lemma ConcatAssoc<T>(a: seq<T>, b: seq<T>, c: seq<T>)
    ensures (a + b) + c == a + (b + c)
  {
  }

  /** One transaction per movement node: nothing is dropped or duplicated,
      and an empty page adds nothing. */
  lemma {:induction false} CollectedLength(pages: seq<Document>, account: Account)
    ensures |Collected(pages, account)| == MovementCount(pages)
  {
    if pages != [] {
      CollectedLength(pages[..|pages| - 1], account);
    }
  }
}
