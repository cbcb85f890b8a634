/** The method registry: two fixed lists of Kraken REST method names, one
    tagged public and one private, and the classification of a name by a
    left fold over the lists. */
module Registry {
  import opened Wrappers

  /** The privacy class of a method set; an unrecognised name gets `None`
      (the source's `undefined`). */
  datatype Privacy = Public | Private

  /** The path segment of a privacy class. */
  function PrivacyName(p: Privacy): string
  {
    match p
    case Public => "public"
    case Private => "private"
  }

  datatype MethodSet = MethodSet(privacy: Privacy, methodNames: seq<string>)

  const PublicNames: seq<string> :=
    ["Assets", "AssetPairs", "Depth", "OHLC", "Ticker", "Time", "Trades", "Spread"]

  const PrivateNames: seq<string> :=
    ["AddOrder", "Balance", "DepositAddresses", "DepositMethods", "DepositStatus",
     "ClosedOrders", "CancelOrder", "GetWebSocketsToken", "Ledgers", "OpenOrders",
     "OpenPositions", "QueryOrders", "QueryTrades", "QueryLedgers", "TradeBalance",
     "TradesHistory", "TradeVolume", "Withdraw", "WithdrawCancel", "WithdrawInfo",
     "WithdrawStatus"]

  /** The registry, public set first. */
  const MethodSets: seq<MethodSet> :=
    [MethodSet(Public, PublicNames), MethodSet(Private, PrivateNames)]

  /** One step of the fold: a set that lists `m` overrides the accumulated
      class with its own; any other set leaves it alone. */
  function ClassifyStep(acc: Option<Privacy>, s: MethodSet, m: string): Option<Privacy>
  {
    if m in s.methodNames then Some(s.privacy) else acc
  }

  /** `sets.reduce(step, acc)`, from the left. */
  function Reduce(sets: seq<MethodSet>, acc: Option<Privacy>, m: string): Option<Privacy>
    decreases |sets|
  {
    if sets == [] then acc else Reduce(sets[1..], ClassifyStep(acc, sets[0], m), m)
  }

  /** The class of a method name, or `None` when no set lists it. */
  function GetMethodType(m: string): Option<Privacy>
  {
    Reduce(MethodSets, None, m)
  }

  /** Some set of `sets` lists `m`. */
  ghost predicate Listed(sets: seq<MethodSet>, m: string)
  {
    exists s :: s in sets && m in s.methodNames
  }

  /** Some set of class `p` in `sets` lists `m`. */
  ghost predicate ListedAs(sets: seq<MethodSet>, m: string, p: Privacy)
  {
    exists s :: s in sets && m in s.methodNames && s.privacy == p
  }

  /** Every set of `sets` that lists `m` has the same class. */
  ghost predicate Unambiguous(sets: seq<MethodSet>, m: string)
  {
    forall s1, s2 :: s1 in sets && s2 in sets && m in s1.methodNames && m in s2.methodNames
      ==> s1.privacy == s2.privacy
  }

  /** The fold either keeps its seed or yields the class of a set listing
      `m`, and it always yields such a class when some set lists `m`. */
  lemma {:induction false} ReduceYieldsListedClass(sets: seq<MethodSet>, acc: Option<Privacy>, m: string)
    ensures Reduce(sets, acc, m) == acc
         || (Reduce(sets, acc, m).Some? && ListedAs(sets, m, Reduce(sets, acc, m).value))
    ensures Listed(sets, m) ==>
      Reduce(sets, acc, m).Some? && ListedAs(sets, m, Reduce(sets, acc, m).value)
    decreases |sets|
  {
    if sets != [] {
      var acc' := ClassifyStep(acc, sets[0], m);
      var r := Reduce(sets, acc, m);
      assert r == Reduce(sets[1..], acc', m);
      ReduceYieldsListedClass(sets[1..], acc', m);
      assert forall s :: s in sets[1..] ==> s in sets;
      if m in sets[0].methodNames {
        assert ListedAs(sets, m, acc'.value) by { assert sets[0] in sets; }
      }
      if Listed(sets, m) && !Listed(sets[1..], m) {
        var s :| s in sets && m in s.methodNames;
        assert s == sets[0] by {
          assert s !in sets[1..];
          assert sets == [sets[0]] + sets[1..];
        }
      }
    }
  }

  /** When the sets agree on `m`, the fold started from `undefined` yields
      exactly the class of the sets listing `m`, and `undefined` exactly when
      none does. */
  lemma ReduceClassifies(sets: seq<MethodSet>, m: string, p: Privacy)
    requires Unambiguous(sets, m)
    ensures Reduce(sets, None, m) == Some(p) <==> ListedAs(sets, m, p)
    ensures Reduce(sets, None, m) == None <==> !Listed(sets, m)
  {
    ReduceYieldsListedClass(sets, None, m);
  }

  /** With sets that agree on `m`, the order of the sets does not change the
      fold's result. */
  lemma ReduceOrderIrrelevant(sets1: seq<MethodSet>, sets2: seq<MethodSet>, m: string)
    requires forall s :: s in sets1 <==> s in sets2
    requires Unambiguous(sets1, m)
    ensures Reduce(sets1, None, m) == Reduce(sets2, None, m)
  {
    ReduceClassifies(sets1, m, Public);
    ReduceClassifies(sets1, m, Private);
    ReduceClassifies(sets2, m, Public);
    ReduceClassifies(sets2, m, Private);
  }

  /** No name is both public and private. */
  lemma NameListsDisjoint()
    ensures forall n :: n in PublicNames ==> n !in PrivateNames
  {
  }

  /** Public names classify as public, private names as private, and every
      other string as `undefined`. */
  lemma GetMethodTypeSpec(m: string)
    ensures GetMethodType(m) == Some(Public) <==> m in PublicNames
    ensures GetMethodType(m) == Some(Private) <==> m in PrivateNames
    ensures GetMethodType(m) == None <==> m !in PublicNames && m !in PrivateNames
  {
    NameListsDisjoint();
    assert Unambiguous(MethodSets, m);
    assert MethodSets[0] in MethodSets && MethodSets[1] in MethodSets;
    ReduceClassifies(MethodSets, m, Public);
    ReduceClassifies(MethodSets, m, Private);
  }

  /** Listing the private set first would classify every name the same way. */
  lemma RegistryOrderIrrelevant(m: string)
    ensures Reduce([MethodSet(Private, PrivateNames), MethodSet(Public, PublicNames)], None, m)
         == GetMethodType(m)
  {
    NameListsDisjoint();
    ReduceOrderIrrelevant(MethodSets, [MethodSet(Private, PrivateNames), MethodSet(Public, PublicNames)], m);
  }

  /** The public method names as the source's type union declares them. */
  datatype PublicMethodName = Time | Assets | AssetPairs | Ticker | Depth | Trades | Spread | OHLC

  /** The private method names as the source's type union declares them. */
  datatype PrivateMethodName =
    | Balance | TradeBalance | OpenOrders | ClosedOrders | QueryOrders | TradesHistory
    | QueryTrades | OpenPositions | Ledgers | QueryLedgers | TradeVolume | AddOrder
    | CancelOrder | DepositMethods | DepositAddresses | DepositStatus | WithdrawInfo
    | Withdraw | WithdrawStatus | WithdrawCancel | GetWebSocketsToken

  function PublicMethodString(n: PublicMethodName): string
  {
    match n
    case Time => "Time"
    case Assets => "Assets"
    case AssetPairs => "AssetPairs"
    case Ticker => "Ticker"
    case Depth => "Depth"
    case Trades => "Trades"
    case Spread => "Spread"
    case OHLC => "OHLC"
  }

  function PrivateMethodString(n: PrivateMethodName): string
  {
    match n
    case Balance => "Balance"
    case TradeBalance => "TradeBalance"
    case OpenOrders => "OpenOrders"
    case ClosedOrders => "ClosedOrders"
    case QueryOrders => "QueryOrders"
    case TradesHistory => "TradesHistory"
    case QueryTrades => "QueryTrades"
    case OpenPositions => "OpenPositions"
    case Ledgers => "Ledgers"
    case QueryLedgers => "QueryLedgers"
    case TradeVolume => "TradeVolume"
    case AddOrder => "AddOrder"
    case CancelOrder => "CancelOrder"
    case DepositMethods => "DepositMethods"
    case DepositAddresses => "DepositAddresses"
    case DepositStatus => "DepositStatus"
    case WithdrawInfo => "WithdrawInfo"
    case Withdraw => "Withdraw"
    case WithdrawStatus => "WithdrawStatus"
    case WithdrawCancel => "WithdrawCancel"
    case GetWebSocketsToken => "GetWebSocketsToken"
  }

  /** No name is listed twice. */
  ghost predicate NoDuplicates(names: seq<string>)
  {
    forall i, j :: 0 <= i < j < |names| ==> names[i] != names[j]
  }

  /** The public type union in the order of the public list. */
  const PublicMethods: seq<PublicMethodName> :=
    [Assets, AssetPairs, Depth, OHLC, Ticker, Time, Trades, Spread]

  /** The private type union in the order of the private list. */
  const PrivateMethods: seq<PrivateMethodName> :=
    [AddOrder, Balance, DepositAddresses, DepositMethods, DepositStatus, ClosedOrders,
     CancelOrder, GetWebSocketsToken, Ledgers, OpenOrders, OpenPositions, QueryOrders,
     QueryTrades, QueryLedgers, TradeBalance, TradesHistory, TradeVolume, Withdraw,
     WithdrawCancel, WithdrawInfo, WithdrawStatus]

  /** Position by position, the public list spells the public union. */
  lemma PublicNamesSpellUnion()
    ensures |PublicMethods| == |PublicNames|
    ensures forall i :: 0 <= i < |PublicNames| ==> PublicNames[i] == PublicMethodString(PublicMethods[i])
  {
  }

  /** Position by position, the private list spells the private union. */
  lemma PrivateNamesSpellUnion()
    ensures |PrivateMethods| == |PrivateNames|
    ensures forall i :: 0 <= i < |PrivateNames| ==> PrivateNames[i] == PrivateMethodString(PrivateMethods[i])
  {
  }

  /** Every member of the public union is in the public order. */
  lemma PublicMethodsComplete()
    ensures forall n :: n in PublicMethods
  {
    forall n ensures n in PublicMethods {
      match n
      case Time =>
      case Assets =>
      case AssetPairs =>
      case Ticker =>
      case Depth =>
      case Trades =>
      case Spread =>
      case OHLC =>
    }
  }

  /** Every member of the private union is in the private order. */
  lemma PrivateMethodsComplete()
    ensures forall n :: n in PrivateMethods
  {
    forall n ensures n in PrivateMethods {
      match n
      case Balance =>
      case TradeBalance =>
      case OpenOrders =>
      case ClosedOrders =>
      case QueryOrders =>
      case TradesHistory =>
      case QueryTrades =>
      case OpenPositions =>
      case Ledgers =>
      case QueryLedgers =>
      case TradeVolume =>
      case AddOrder =>
      case CancelOrder =>
      case DepositMethods =>
      case DepositAddresses =>
      case DepositStatus =>
      case WithdrawInfo =>
      case Withdraw =>
      case WithdrawStatus =>
      case WithdrawCancel =>
      case GetWebSocketsToken =>
    }
  }

  /** The public list holds exactly the names of the public type union, each
      once. */
  lemma PublicListMatchesUnion()
    ensures forall n :: PublicMethodString(n) in PublicNames
    ensures forall m :: m in PublicNames ==> exists n :: PublicMethodString(n) == m
    ensures NoDuplicates(PublicNames)
  {
    PublicNamesSpellUnion();
    PublicMethodsComplete();
    forall n ensures PublicMethodString(n) in PublicNames {
      assert n in PublicMethods;
      var i :| 0 <= i < |PublicMethods| && PublicMethods[i] == n;
      assert PublicNames[i] == PublicMethodString(n);
    }
    PublicNamesDistinct();
  }

  /** The private list holds exactly the names of the private type union,
      each once. */
  lemma PrivateListMatchesUnion()
    ensures forall n :: PrivateMethodString(n) in PrivateNames
    ensures forall m :: m in PrivateNames ==> exists n :: PrivateMethodString(n) == m
    ensures NoDuplicates(PrivateNames)
  {
    PrivateNamesSpellUnion();
    PrivateMethodsComplete();
    forall n ensures PrivateMethodString(n) in PrivateNames {
      assert n in PrivateMethods;
      var i :| 0 <= i < |PrivateMethods| && PrivateMethods[i] == n;
      assert PrivateNames[i] == PrivateMethodString(n);
    }
    PrivateNamesDistinct();
  }

  /** No public method name is listed twice. */
  lemma PublicNamesDistinct()
    ensures NoDuplicates(PublicNames)
  {
  }

  /** No private method name is listed twice; names of one length differ at position 0, 5 or 8. */
  lemma PrivateNamesDistinct()
    ensures NoDuplicates(PrivateNames)
  {
    forall i, j | 0 <= i < j < |PrivateNames| ensures PrivateNames[i] != PrivateNames[j] {
      var a, b := PrivateNames[i], PrivateNames[j];
      assert |a| != |b| || a[0] != b[0] || a[5] != b[5] || (|a| > 8 && a[8] != b[8]);
    }
  }
}
