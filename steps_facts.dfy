/** Properties of the action library of src/steps/steps.ts. */
module StepsFacts {
  import opened Wrappers
  import opened Text
  import opened Steps

  // ---------------------------------------------------------------------
  // The store

  /** After `setVariable(n, v)`, `getVariable(n)` is `v` and every other
      name reads as before. */
  lemma SetThenGet(store: Store, n: string, v: Option<string>, k: string)
    ensures Get(store[n := v], k) == if k == n then v else Get(store, k)
  {
  }

  // ---------------------------------------------------------------------
  // The decision chain

  /** `Ввести имя пользователя` stores the first parameter as `username`.
      The action also starts with `Ввести имя`, but that later test is
      never reached, so `firstName` is not set. */
  lemma UsernameIsNotFirstName(action: string, parameters: seq<string>, store: Store)
    requires StartsWith(action, "Ввести имя пользователя")
    ensures StartsWith(action, "Ввести имя")
    ensures Select(action, parameters, store) == Remember("username", Param(parameters, 0))
  {
    var p := "Ввести имя пользователя";
    assert action[..10] == action[..|p|][..10] == p[..10] == "Ввести имя";
    PrefixesDiffer(action, p, "Открыть страницу", 0);
  }

  /** `Ввести пароль` fails unless a truthy `username` was stored, and
      otherwise logs in with it and the first parameter. */
  lemma PasswordNeedsUsername(action: string, parameters: seq<string>, store: Store)
    requires StartsWith(action, "Ввести пароль")
    ensures Select(action, parameters, store)
      == if !Truthy(Get(store, "username")) then Fail(PasswordWithoutUsername)
         else Visit(Login(Get(store, "username").value, Param(parameters, 0)))
  {
    var p := "Ввести пароль";
    PrefixesDiffer(action, p, "Открыть страницу", 0);
    PrefixesDiffer(action, p, "Ввести имя пользователя", 7);
  }

  /** Adding to cart passes the key of the first parameter; with no
      parameter, lower-casing `undefined` throws. */
  lemma AddToCartKey(action: string, parameters: seq<string>, store: Store)
    requires StartsWith(action, "Добавить товар") && Contains(action, "в корзину")
    ensures Select(action, parameters, store)
      == if parameters == [] then Fail(LowerCaseOfUndefined)
         else Visit(AddToCart(ProductNameToKey(parameters[0])))
  {
    var p := "Добавить товар";
    PrefixesDiffer(action, p, "Открыть страницу", 0);
    PrefixesDiffer(action, p, "Ввести имя пользователя", 0);
    PrefixesDiffer(action, p, "Ввести пароль", 0);
    PrefixesDiffer(action, p, "Нажать на кнопку входа", 0);
    PrefixesDiffer(action, p, "Должен увидеть заголовок", 2);
  }

  /** `Продолжить оформление` fails unless `firstName`, `lastName` and
      `postalCode` are all truthy, and otherwise fills in those three. */
  lemma CheckoutNeedsCustomerData(action: string, parameters: seq<string>, store: Store)
    requires StartsWith(action, "Продолжить оформление")
    ensures var f, l, c := Get(store, "firstName"), Get(store, "lastName"), Get(store, "postalCode");
      Select(action, parameters, store)
        == if Truthy(f) && Truthy(l) && Truthy(c) then Visit(FillInformation(f.value, l.value, c.value))
           else Fail(MissingCustomerData)
  {
    var p := "Продолжить оформление";
    PrefixesDiffer(action, p, "Открыть страницу", 0);
    PrefixesDiffer(action, p, "Ввести имя пользователя", 0);
    PrefixesDiffer(action, p, "Ввести пароль", 0);
    PrefixesDiffer(action, p, "Нажать на кнопку входа", 0);
    PrefixesDiffer(action, p, "Должен увидеть заголовок", 0);
    PrefixesDiffer(action, p, "Добавить товар", 0);
    PrefixesDiffer(action, p, "Открыть корзину", 0);
    PrefixesDiffer(action, p, "Должен увидеть товар", 0);
    PrefixesDiffer(action, p, "Перейти к оформлению заказа", 1);
    PrefixesDiffer(action, p, "Ввести имя", 0);
    PrefixesDiffer(action, p, "Ввести фамилию", 0);
    PrefixesDiffer(action, p, "Ввести почтовый индекс", 0);
  }

  lemma PriceChoice(action: string, parameters: seq<string>, store: Store)
    requires StartsWith(action, "Запомнить цену товара")
    ensures Select(action, parameters, store)
      == RememberPrice(GetProductPrice(Param(parameters, 0)), PriceVariable(parameters))
  {
    PriceNotEarlier(action);
    PriceNotEntry(action);
    PriceNotCheck(action);
  }

  /** None of the tests before the price test holds for a price action:
      every earlier prefix differs from it in its first letter, but
      `Завершить заказ`, which differs in its third. */
  lemma PriceNotEarlier(action: string)
    requires StartsWith(action, "Запомнить цену товара")
    ensures !StartsWith(action, "Открыть страницу")
    ensures !StartsWith(action, "Открыть корзину")
    ensures !StartsWith(action, "Открыть меню")
    ensures !StartsWith(action, "Нажать на кнопку входа")
    ensures !StartsWith(action, "Перейти к оформлению заказа")
    ensures !StartsWith(action, "Продолжить оформление")
    ensures !StartsWith(action, "Завершить заказ")
  {
    var p := "Запомнить цену товара";
    PrefixesDiffer(action, p, "Открыть страницу", 0);
    PrefixesDiffer(action, p, "Открыть корзину", 0);
    PrefixesDiffer(action, p, "Открыть меню", 0);
    PrefixesDiffer(action, p, "Нажать на кнопку входа", 0);
    PrefixesDiffer(action, p, "Перейти к оформлению заказа", 0);
    PrefixesDiffer(action, p, "Продолжить оформление", 0);
    PrefixesDiffer(action, p, "Завершить заказ", 2);
    PriceNotEntry(action);
    PriceNotCheck(action);
  }

  lemma PriceNotEntry(action: string)
    requires StartsWith(action, "Запомнить цену товара")
    ensures !StartsWith(action, "Ввести имя пользователя")
    ensures !StartsWith(action, "Ввести пароль")
    ensures !StartsWith(action, "Ввести имя")
    ensures !StartsWith(action, "Ввести фамилию")
    ensures !StartsWith(action, "Ввести почтовый индекс")
    ensures !StartsWith(action, "Выйти из системы")
  {
    var p := "Запомнить цену товара";
    PrefixesDiffer(action, p, "Ввести имя пользователя", 0);
    PrefixesDiffer(action, p, "Ввести пароль", 0);
    PrefixesDiffer(action, p, "Ввести имя", 0);
    PrefixesDiffer(action, p, "Ввести фамилию", 0);
    PrefixesDiffer(action, p, "Ввести почтовый индекс", 0);
    PrefixesDiffer(action, p, "Выйти из системы", 0);
  }

  lemma PriceNotCheck(action: string)
    requires StartsWith(action, "Запомнить цену товара")
    ensures !StartsWith(action, "Должен увидеть заголовок")
    ensures !StartsWith(action, "Добавить товар")
    ensures !StartsWith(action, "Должен увидеть товар")
    ensures !StartsWith(action, "Должен увидеть")
    ensures !StartsWith(action, "Должен увидеть сообщение о завершении")
  {
    var p := "Запомнить цену товара";
    PrefixesDiffer(action, p, "Должен увидеть заголовок", 0);
    PrefixesDiffer(action, p, "Добавить товар", 0);
    PrefixesDiffer(action, p, "Должен увидеть товар", 0);
    PrefixesDiffer(action, p, "Должен увидеть", 0);
    PrefixesDiffer(action, p, "Должен увидеть сообщение о завершении", 0);
  }

  /** `Запомнить цену товара` stores the price the page yields under the
      name in the second parameter (the key "undefined" when missing). */
  lemma PriceIsRemembered(page: Page, lib: Library, action: string, parameters: seq<string>, price: string)
    requires StartsWith(action, "Запомнить цену товара")
    requires page(lib.pages, GetProductPrice(Param(parameters, 0))) == Ok(price)
    ensures var r := Perform(page, lib, action, parameters);
      && r.error == None
      && Get(r.lib.variables, PriceVariable(parameters)) == Some(price)
      && (forall k :: k != PriceVariable(parameters) ==> Get(r.lib.variables, k) == Get(lib.variables, k))
      && r.lib.pages == lib.pages + [GetProductPrice(Param(parameters, 0))]
  {
    PriceChoice(action, parameters, lib.variables);
  }

  /** The fallback: `performAction` throws `Неизвестное действие: <action>`
      exactly when none of the chain's tests holds. An action that merely
      shares a first word with a known one (`Открыть окно`) is unknown too. */
  lemma UnknownActionFails(action: string, parameters: seq<string>, store: Store)
    ensures Select(action, parameters, store) == Fail(UnknownAction + action) <==> !Known(action)
  {
    if Known(action) {
      KnownActionHandled(action, parameters, store);
    }
  }

  /** A known action never reaches the fallback: every message the chain
      itself throws differs from the fallback's within its first letters. */
  lemma KnownActionHandled(action: string, parameters: seq<string>, store: Store)
    requires Known(action)
    ensures Select(action, parameters, store) != Fail(UnknownAction + action)
  {
    var unknown := UnknownAction + action;
    assert unknown[0] == 'Н' && unknown[2] == 'и';
    assert PasswordWithoutUsername[0] == 'И';
    assert MissingCustomerData[2] == ' ';
    assert LowerCaseOfUndefined[0] == 'C';
  }

  /** The first character of every prefix the chain tests. */
  predicate ChainInitial(c: char) {
    c == 'О' || c == 'В' || c == 'Н' || c == 'Д' || c == 'П' || c == 'З'
  }

  /** An action that starts with none of the chain's initials is unknown. */
  lemma UnknownInitial(action: string)
    requires action == [] || !ChainInitial(action[0])
    ensures !Known(action)
  {
    NotPrefix(action, "Открыть страницу");
    NotPrefix(action, "Ввести имя пользователя");
    NotPrefix(action, "Ввести пароль");
    NotPrefix(action, "Нажать на кнопку входа");
    NotPrefix(action, "Должен увидеть заголовок");
    NotPrefix(action, "Добавить товар");
    NotPrefix(action, "Открыть корзину");
    NotPrefix(action, "Должен увидеть товар");
    NotPrefix(action, "Перейти к оформлению заказа");
    NotPrefix(action, "Ввести имя");
    NotPrefix(action, "Ввести фамилию");
    NotPrefix(action, "Ввести почтовый индекс");
    NotPrefix(action, "Продолжить оформление");
    NotPrefix(action, "Должен увидеть");
    NotPrefix(action, "Завершить заказ");
    NotPrefix(action, "Должен увидеть сообщение о завершении");
    NotPrefix(action, "Открыть меню");
    NotPrefix(action, "Выйти из системы");
    NotPrefix(action, "Запомнить цену товара");
    NotPrefix(action, "Должен увидеть количество товаров");
  }

  /** Actions opening with a Latin letter (English phrases) are unknown. */
  lemma EnglishActionsUnknown(action: string, parameters: seq<string>, store: Store)
    requires action != [] && ('A' <= action[0] <= 'Z' || 'a' <= action[0] <= 'z')
    ensures Select(action, parameters, store) == Fail(UnknownAction + action)
  {
    UnknownInitial(action);
    UnknownActionFails(action, parameters, store);
  }

  /** One call makes at most one page request and keeps the earlier ones;
      an error, from the chain or from the page, is passed on unchanged and
      leaves the store as it was. */
  lemma PerformEffects(page: Page, lib: Library, action: string, parameters: seq<string>)
    ensures var r := Perform(page, lib, action, parameters);
      && lib.pages <= r.lib.pages && |r.lib.pages| <= |lib.pages| + 1
      && (r.error.Some? ==> r.lib.variables == lib.variables)
      && (Select(action, parameters, lib.variables).Fail? ==>
            r == Performed(lib, Some(Select(action, parameters, lib.variables).message)))
      && (Select(action, parameters, lib.variables).Visit? ==>
            var call := Select(action, parameters, lib.variables).call;
            r.lib.pages == lib.pages + [call] &&
            (page(lib.pages, call).Err? <==> r.error.Some?) &&
            (page(lib.pages, call).Err? ==> r.error == Some(page(lib.pages, call).error)))
  {
  }

  // ---------------------------------------------------------------------
  // productNameToKey

  /** A key has no spaces. */
  lemma KeyHasNoSpaces(name: string)
    ensures ' ' !in ProductNameToKey(name)
  {
    var key := ProductNameToKey(name);
    forall i | 0 <= i < |key| ensures key[i] != ' ' {
      LowerCharWhitespace(name[i]);
    }
  }

  /** Converting a key again changes nothing. */
  lemma KeyIdempotent(name: string)
    ensures ProductNameToKey(ProductNameToKey(name)) == ProductNameToKey(name)
  {
    var key := ProductNameToKey(name);
    forall i | 0 <= i < |key| ensures ProductNameToKey(key)[i] == key[i] {
      LowerCharIdempotent(name[i]);
      LowerCharWhitespace(name[i]);
      assert LowerChar('-') == '-';
    }
  }

  lemma KeyExample()
    ensures ProductNameToKey("Sauce Labs Backpack") == "sauce-labs-backpack"
    ensures ProductNameToKey("Телефон") == "телефон"
  {
  }

  // ---------------------------------------------------------------------
  // parseInt

  function DigitChar(d: nat): char
    requires d < 10
  {
    ('0' as int + d) as char
  }

  /** The decimal numeral of `n`, without leading zeros. */
  function Decimal(n: nat): (r: string)
    ensures r != [] && forall i :: 0 <= i < |r| ==> IsDecimalDigit(r[i])
    ensures r[0] == '0' ==> n == 0
  {
    if n < 10 then [DigitChar(n)] else Decimal(n / 10) + [DigitChar(n % 10)]
  }

  lemma {:induction false} DecimalValue(n: nat)
    ensures forall i :: 0 <= i < |Decimal(n)| ==> DigitValue(Decimal(n)[i], 10).Some?
    ensures DigitsValue(Decimal(n), 10) == n
  {
    if n >= 10 {
      DecimalValue(n / 10);
      var d := Decimal(n);
      assert d[..|d| - 1] == Decimal(n / 10);
    }
  }

  lemma {:induction false} WholeRun(ds: string, rest: string)
    requires forall i :: 0 <= i < |ds| ==> IsDecimalDigit(ds[i])
    requires rest == [] || !IsDecimalDigit(rest[0])
    ensures DigitPrefix(ds + rest, 10) == |ds|
    decreases |ds|
  {
    if ds != [] {
      assert (ds + rest)[1..] == ds[1..] + rest;
      WholeRun(ds[1..], rest);
    } else {
      assert ds + rest == rest;
    }
  }

  /** `parseInt` reads back a decimal numeral and ignores what follows it
      (unless that could continue it as digits or, after `0`, as `0x`). */
  lemma ParseDecimal(n: nat, rest: string)
    requires rest == [] || (!IsDecimalDigit(rest[0]) && rest[0] != 'x' && rest[0] != 'X')
    ensures ParseInt(Some(Decimal(n) + rest)) == Some(n)
  {
    var t := Decimal(n) + rest;
    assert t[0] == Decimal(n)[0];
    assert TrimStart(t) == t;
    UnsignedDecimal(n, rest);
  }

  /** The digits of a decimal numeral, read without a sign. */
  lemma UnsignedDecimal(n: nat, rest: string)
    requires rest == [] || (!IsDecimalDigit(rest[0]) && rest[0] != 'x' && rest[0] != 'X')
    ensures Unsigned(Decimal(n) + rest) == Some(n)
  {
    var t := Decimal(n) + rest;
    if |t| >= 2 && t[0] == '0' {
      assert |Decimal(n)| == 1;
      assert t[1] == rest[0];
    }
    WholeRun(Decimal(n), rest);
    assert t[..|Decimal(n)|] == Decimal(n);
    DecimalValue(n);
  }

  /** A leading minus sign negates. */
  lemma ParseNegative(n: nat)
    ensures ParseInt(Some("-" + Decimal(n))) == Some(-(n as int))
  {
    var t := "-" + Decimal(n);
    assert t[1..] == Decimal(n) + [];
    assert TrimStart(t) == t;
    ParseDecimal(n, []);
    assert TrimStart(Decimal(n) + []) == Decimal(n) + [];
  }

  /** A missing parameter reads as "undefined", which is `NaN`. */
  lemma ParseUndefined()
    ensures ParseInt(None) == None
  {
    assert TrimStart("undefined") == "undefined";
  }
}
