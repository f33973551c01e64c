/** The action library of src/steps/steps.ts: the module-level variable
    store and the ordered chain of Russian prefix tests in `performAction`
    that picks one page operation, with its precondition errors. The page
    objects themselves are an oracle: each request either yields a value
    or fails with a message. */
module Steps {
  import opened Wrappers
  import opened Text

  // ---------------------------------------------------------------------
  // The variable store: setVariable / getVariable

  /** Values may be `undefined` (a missing parameter), hence `Option`. */
  type Store = map<string, Option<string>>

  /** `variables[name]`: `undefined` for a name never set. */
  function Get(store: Store, name: string): Option<string> {
    if name in store then store[name] else None
  }

  /** JavaScript truthiness of a stored value. */
  predicate Truthy(v: Option<string>) {
    v.Some? && v.value != ""
  }

  /** `parameters[i]`, `undefined` past the end. */
  function Param(parameters: seq<string>, i: nat): (r: Option<string>)
    ensures r.Some? <==> i < |parameters|
    ensures r.Some? ==> r.value == parameters[i]
  {
    if i < |parameters| then Some(parameters[i]) else None
  }

  // ---------------------------------------------------------------------
  // productNameToKey and parseInt

  /** `productName.toLowerCase().replace(/ /g, '-')`. */
  function ProductNameToKey(name: string): (key: string)
    ensures |key| == |name|
    ensures forall i :: 0 <= i < |name| ==>
      key[i] == (if LowerChar(name[i]) == ' ' then '-' else LowerChar(name[i]))
  {
    var lower := ToLower(name);
    seq(|lower|, i requires 0 <= i < |lower| => if lower[i] == ' ' then '-' else lower[i])
  }

  predicate IsDecimalDigit(c: char) {
    '0' <= c <= '9'
  }

  /** The value of `c` as a digit in `radix` (10 or 16), if it is one. */
  function DigitValue(c: char, radix: nat): Option<nat> {
    if '0' <= c <= '9' then (if (c as int - '0' as int) < radix then Some(c as int - '0' as int) else None)
    else if radix == 16 && 'a' <= c <= 'f' then Some(c as int - 'a' as int + 10)
    else if radix == 16 && 'A' <= c <= 'F' then Some(c as int - 'A' as int + 10)
    else None
  }

  /** The length of the longest prefix of digits in `radix`. */
  function DigitPrefix(s: string, radix: nat): (n: nat)
    ensures n <= |s|
    ensures forall i :: 0 <= i < n ==> DigitValue(s[i], radix).Some?
    ensures n < |s| ==> DigitValue(s[n], radix).None?
  {
    if s != [] && DigitValue(s[0], radix).Some? then 1 + DigitPrefix(s[1..], radix) else 0
  }

  /** The number the digits spell, most significant first. */
  function DigitsValue(ds: string, radix: nat): nat
    requires forall i :: 0 <= i < |ds| ==> DigitValue(ds[i], radix).Some?
  {
    if ds == [] then 0
    else
      var init := ds[..|ds| - 1];
      assert forall i :: 0 <= i < |init| ==> init[i] == ds[i];
      var high := DigitsValue(init, radix);
      ProductNat(high, radix);
      high * radix + DigitValue(ds[|ds| - 1], radix).value
  }

  lemma ProductNat(a: nat, b: nat)
    ensures a * b >= 0
  {
  }

  /** The digits after the sign, for a radix chosen by an optional `0x`. */
  function Unsigned(t: string): Option<nat> {
    var hex := |t| >= 2 && t[0] == '0' && (t[1] == 'x' || t[1] == 'X');
    var radix := if hex then 16 else 10;
    var body := if hex then t[2..] else t;
    var n := DigitPrefix(body, radix);
    if n == 0 then None else Some(DigitsValue(body[..n], radix))
  }

  /** `parseInt(s)` with no radix: leading whitespace, an optional sign, an
      optional `0x`, then the longest run of digits; `None` stands for
      `NaN`. `parseInt(undefined)` reads the text "undefined". */
  function ParseInt(v: Option<string>): Option<int> {
    var t := TrimStart(v.GetOr("undefined"));
    if t != [] && t[0] == '-' then
      match Unsigned(t[1..]) case None => None case Some(n) => Some(-(n as int))
    else if t != [] && t[0] == '+' then
      match Unsigned(t[1..]) case None => None case Some(n) => Some(n)
    else
      match Unsigned(t) case None => None case Some(n) => Some(n)
  }

  // ---------------------------------------------------------------------
  // Page operations and the decision chain

  datatype PageCall =
    | Open(url: Option<string>)
    | Login(username: string, password: Option<string>)
    | ClickLogin
    | CheckTitle(expected: Option<string>)
    | AddToCart(productKey: string)
    | OpenCart
    | CheckItemInCart(item: Option<string>)
    | Checkout
    | FillInformation(firstName: string, lastName: string, postalCode: string)
    | CheckItem(item: Option<string>)
    | CheckPriceInTotals(expected: Option<string>)
    | FinishOrder
    | CheckOrderFinished(message: Option<string>)
    | OpenMenu
    | Logout
    | GetProductPrice(product: Option<string>)
    | CheckItemsCount(count: Option<int>)

  /** What one `performAction` call decides to do. */
  datatype Choice =
    | Fail(message: string)
    | Remember(name: string, value: Option<string>)
    | Visit(call: PageCall)
    | RememberPrice(call: PageCall, name: string)

  // The longer messages are written in two pieces, the first word apart, so
  // that the verifier can read their opening letters.
  const PasswordWithoutUsername: string := "Имя " + "пользователя не было введено до ввода пароля."
  const MissingCustomerData: string := "Не " + "все данные покупателя были введены до продолжения оформления."
  const UnknownAction: string := "Неизвестное действие: "
  /** What `undefined.toLowerCase()` throws. */
  const LowerCaseOfUndefined: string := "Cannot " + "read properties of undefined (reading 'toLowerCase')"

  /** The name `variables[parameters[1]]` assigns: a missing parameter
      becomes the key "undefined". */
  function PriceVariable(parameters: seq<string>): string {
    Param(parameters, 1).GetOr("undefined")
  }

  /** Some test of the chain holds: the action is one the library knows. */
  predicate Known(action: string) {
    || StartsWith(action, "Открыть страницу")
    || StartsWith(action, "Ввести имя пользователя")
    || StartsWith(action, "Ввести пароль")
    || StartsWith(action, "Нажать на кнопку входа")
    || StartsWith(action, "Должен увидеть заголовок")
    || (StartsWith(action, "Добавить товар") && Contains(action, "в корзину"))
    || StartsWith(action, "Открыть корзину")
    || (StartsWith(action, "Должен увидеть товар") && Contains(action, "в корзине"))
    || StartsWith(action, "Перейти к оформлению заказа")
    || StartsWith(action, "Ввести имя")
    || StartsWith(action, "Ввести фамилию")
    || StartsWith(action, "Ввести почтовый индекс")
    || StartsWith(action, "Продолжить оформление")
    || (StartsWith(action, "Должен увидеть товар") && Contains(action, "в заказе"))
    || (StartsWith(action, "Должен увидеть") && Contains(action, "в итогах заказа"))
    || StartsWith(action, "Завершить заказ")
    || StartsWith(action, "Должен увидеть сообщение о завершении")
    || StartsWith(action, "Открыть меню")
    || StartsWith(action, "Выйти из системы")
    || StartsWith(action, "Запомнить цену товара")
    || StartsWith(action, "Должен увидеть количество товаров")
  }

  /** The chain of `performAction`, tested in source order; the first
      matching prefix decides. */
  function Select(action: string, parameters: seq<string>, store: Store): Choice {
    var p0 := Param(parameters, 0);
    if StartsWith(action, "Открыть страницу") then Visit(Open(p0))
    else if StartsWith(action, "Ввести имя пользователя") then Remember("username", p0)
    else if StartsWith(action, "Ввести пароль") then
      (var username := Get(store, "username");
       if !Truthy(username) then Fail(PasswordWithoutUsername) else Visit(Login(username.value, p0)))
    else if StartsWith(action, "Нажать на кнопку входа") then Visit(ClickLogin)
    else if StartsWith(action, "Должен увидеть заголовок") then Visit(CheckTitle(p0))
    else if StartsWith(action, "Добавить товар") && Contains(action, "в корзину") then
      (if p0.None? then Fail(LowerCaseOfUndefined) else Visit(AddToCart(ProductNameToKey(p0.value))))
    else if StartsWith(action, "Открыть корзину") then Visit(OpenCart)
    else if StartsWith(action, "Должен увидеть товар") && Contains(action, "в корзине") then Visit(CheckItemInCart(p0))
    else if StartsWith(action, "Перейти к оформлению заказа") then Visit(Checkout)
    else if StartsWith(action, "Ввести имя") then Remember("firstName", p0)
    else if StartsWith(action, "Ввести фамилию") then Remember("lastName", p0)
    else if StartsWith(action, "Ввести почтовый индекс") then Remember("postalCode", p0)
    else if StartsWith(action, "Продолжить оформление") then
      (var f, l, c := Get(store, "firstName"), Get(store, "lastName"), Get(store, "postalCode");
       if !Truthy(f) || !Truthy(l) || !Truthy(c) then Fail(MissingCustomerData)
       else Visit(FillInformation(f.value, l.value, c.value)))
    else if StartsWith(action, "Должен увидеть товар") && Contains(action, "в заказе") then Visit(CheckItem(p0))
    else if StartsWith(action, "Должен увидеть") && Contains(action, "в итогах заказа") then Visit(CheckPriceInTotals(p0))
    else if StartsWith(action, "Завершить заказ") then Visit(FinishOrder)
    else if StartsWith(action, "Должен увидеть сообщение о завершении") then Visit(CheckOrderFinished(p0))
    else if StartsWith(action, "Открыть меню") then Visit(OpenMenu)
    else if StartsWith(action, "Выйти из системы") then Visit(Logout)
    else if StartsWith(action, "Запомнить цену товара") then RememberPrice(GetProductPrice(p0), PriceVariable(parameters))
    else if StartsWith(action, "Должен увидеть количество товаров") then Visit(CheckItemsCount(ParseInt(p0)))
    else Fail(UnknownAction + action)
  }

  /** The page objects: given the requests made so far and a new one, the
      value it yields (the price, for `GetProductPrice`) or the message it
      fails with. */
  type Page = (seq<PageCall>, PageCall) -> Result<string, string>

  /** The state of the library: its store and the page requests made. */
  datatype Library = Library(variables: Store, pages: seq<PageCall>)

  datatype Performed = Performed(lib: Library, error: Option<string>)

  /** `performAction`: the choice carried out; any error, the library's own
      or the page's, is rethrown unchanged. */
  function Perform(page: Page, lib: Library, action: string, parameters: seq<string>): Performed {
    match Select(action, parameters, lib.variables)
    case Fail(message) => Performed(lib, Some(message))
    case Remember(name, value) => Performed(lib.(variables := lib.variables[name := value]), None)
    case Visit(call) =>
      var reply := page(lib.pages, call);
      Performed(lib.(pages := lib.pages + [call]), if reply.Err? then Some(reply.error) else None)
    case RememberPrice(call, name) =>
      var reply := page(lib.pages, call);
      if reply.Err? then Performed(lib.(pages := lib.pages + [call]), Some(reply.error))
      else Performed(Library(lib.variables[name := Some(reply.value)], lib.pages + [call]), None)
  }

  // ---------------------------------------------------------------------
  // The module state as an object

  class ActionLibrary {
    const page: Page
    var variables: Store
    var pages: seq<PageCall>

    constructor(page: Page)
      ensures this.page == page && variables == map[] && pages == []
    {
      this.page := page;
      variables := map[];
      pages := [];
    }

    function State(): Library
      reads this
    {
      Library(variables, pages)
    }

    /** `setVariable`. */
    method SetVariable(name: string, value: Option<string>)
      modifies this
      ensures variables == old(variables)[name := value] && pages == old(pages)
    {
      variables := variables[name := value];
    }

    /** `getVariable`. */
    function GetVariable(name: string): (v: Option<string>)
      reads this
      ensures name !in variables ==> v == None
      ensures name in variables ==> v == variables[name]
    {
      Get(variables, name)
    }

    method PerformAction(action: string, parameters: seq<string>) returns (error: Option<string>)
      modifies this
      ensures Performed(State(), error) == Perform(page, old(State()), action, parameters)
    {
      var choice := Select(action, parameters, variables);
      match choice {
        case Fail(message) =>
          error := Some(message);
        case Remember(name, value) =>
          SetVariable(name, value);
          error := None;
        case Visit(call) =>
          var reply := page(pages, call);
          pages := pages + [call];
          error := if reply.Err? then Some(reply.error) else None;
        case RememberPrice(call, name) =>
          var reply := page(pages, call);
          pages := pages + [call];
          if reply.Err? {
            error := Some(reply.error);
          } else {
            SetVariable(name, Some(reply.value));
            error := None;
          }
      }
    }
  }
}
