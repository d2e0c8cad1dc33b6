/** The account state of assets/js/auth.js: the user list, the current login,
    the per-user address books, the order log and the password-reset codes.
    The SHA-256 digest is the parameter `hash`; random tokens, the clock and
    today's date are parameters too. */
module Auth {
  import opened Wrappers
  import opened Seqs
  import opened Validation
  import JsNumber

  datatype Address = Address(id: string, details: Option<string>, isDefault: bool, createdAt: Option<string>, updatedAt: Option<string>)

  /** The fields a caller passes in `addressData`; an absent field does not
      override anything in a spread. */
  datatype AddressInput = AddressInput(id: Option<string>, details: Option<string>, isDefault: Option<bool>)

  /** A stored user: registered users carry the digest `pass`, the seed users
      only a plain `password`. */
  datatype User = User(
    id: string, name: string, email: string,
    pass: Option<string>, password: Option<string>,
    addresses: seq<Address>, memberSince: string,
    points: Option<int>, level: Option<string>, createdAt: Option<int>)

  /** What `currentUser` returns: the user without `pass`. */
  datatype Profile = Profile(
    id: string, name: string, email: string, password: Option<string>,
    addresses: seq<Address>, memberSince: string,
    points: Option<int>, level: Option<string>, createdAt: Option<int>)

  /** The `user` of a register or login result. */
  datatype Account = Account(id: string, name: string, email: string)

  datatype Order = Order(id: string, email: string, total: real)

  datatype ResetRecord = ResetRecord(code: string, expires: int)

  datatype AuthError =
    | InvalidEmail | ShortPassword | EmailTaken
    | UserNotFound | InvalidCredentials
    | EmailNotFound | CodeExpired | InvalidCode | PasswordTooShort
    | NoCurrentUser | UserNotInList | AddressToEditNotFound | AddressToDeleteNotFound

  /** The demo users `loadUsers` falls back to. */
  const DemoUsers: seq<User> := [
    User("u-demo001", "สมชาย วิเศษ", "somchai@email.com", None, Some("demo123"), [], "2024-01-15", None, None, None),
    User("u-demo002", "มาลี ใจดี", "malee@email.com", None, Some("demo123"), [], "2024-02-20", None, None, None),
    User("u-demo003", "วิชัย รักษ์ดี", "wichai@email.com", None, Some("demo123"), [], "2024-03-10", None, None, None)
  ]

  /** Ten minutes, in milliseconds. */
  const ResetLifetime: int := 10 * 60 * 1000

  function Strip(u: User): (p: Profile)
    ensures p.id == u.id && p.email == u.email && p.addresses == u.addresses && p.password == u.password
  {
    Profile(u.id, u.name, u.email, u.password, u.addresses, u.memberSince, u.points, u.level, u.createdAt)
  }

  function HasEmail(email: string): User -> bool {
    (u: User) => u.email == email
  }

  /** `findIndex(u => u.email === email)`. */
  function UserIndex(users: seq<User>, email: string): (r: Option<nat>)
    ensures r.Some? ==> r.value < |users| && users[r.value].email == email
    ensures r.Some? ==> forall j :: 0 <= j < r.value ==> users[j].email != email
    ensures r.None? <==> forall j :: 0 <= j < |users| ==> users[j].email != email
  {
    FindIndex(HasEmail(email), users)
  }

  function HasAddressId(id: string): Address -> bool {
    (a: Address) => a.id == id
  }

  function AddressIndex(addresses: seq<Address>, id: string): (r: Option<nat>)
    ensures r.Some? ==> r.value < |addresses| && addresses[r.value].id == id
    ensures r.Some? ==> forall j :: 0 <= j < r.value ==> addresses[j].id != id
    ensures r.None? <==> forall j :: 0 <= j < |addresses| ==> addresses[j].id != id
  {
    FindIndex(HasAddressId(id), addresses)
  }

  function OtherAddress(id: string): Address -> bool {
    (a: Address) => a.id != id
  }

  /** At most one address of the book is the default. */
  predicate AtMostOneDefault(addresses: seq<Address>) {
    forall i, j :: 0 <= i < j < |addresses| && addresses[i].isDefault ==> !addresses[j].isDefault
  }

  /** `addresses.forEach(addr => addr.isDefault = false)`. */
  function ClearDefaults(addresses: seq<Address>): (r: seq<Address>)
    ensures |r| == |addresses|
    ensures forall i :: 0 <= i < |r| ==> !r[i].isDefault && r[i].(isDefault := addresses[i].isDefault) == addresses[i]
  {
    if addresses == [] then [] else [addresses[0].(isDefault := false)] + ClearDefaults(addresses[1..])
  }

  /** `{...old, ...addressData, updatedAt}`. */
  function Merge(a: Address, data: AddressInput, updatedAt: string): Address {
    Address(data.id.GetOr(a.id),
            if data.details.Some? then data.details else a.details,
            data.isDefault.GetOr(a.isDefault),
            a.createdAt,
            Some(updatedAt))
  }

  /** The book after `deleteUserAddress` removed entry `j`. */
  function AfterDelete(addresses: seq<Address>, j: nat): (r: seq<Address>)
    requires j < |addresses|
    ensures |r| == |addresses| - 1
    ensures forall i :: 0 <= i < |r| ==>
      r[i].(isDefault := false) == (if i < j then addresses[i] else addresses[i + 1]).(isDefault := false)
    ensures addresses[j].isDefault && |r| > 0 ==> r[0].isDefault
    ensures forall i :: 0 < i < |r| ==> r[i].isDefault == (if i < j then addresses[i] else addresses[i + 1]).isDefault
    ensures !addresses[j].isDefault ==> forall i :: 0 <= i < |r| ==> r[i] == if i < j then addresses[i] else addresses[i + 1]
  {
    var rest := addresses[..j] + addresses[j + 1..];
    if addresses[j].isDefault && |rest| > 0 then rest[0 := rest[0].(isDefault := true)] else rest
  }

  lemma AfterDeleteKeepsOneDefault(addresses: seq<Address>, j: nat)
    requires j < |addresses| && AtMostOneDefault(addresses)
    ensures AtMostOneDefault(AfterDelete(addresses, j))
  {
    var r := AfterDelete(addresses, j);
    var rest := addresses[..j] + addresses[j + 1..];
    assert forall i :: 0 <= i < |rest| ==> rest[i] == if i < j then addresses[i] else addresses[i + 1];
    if addresses[j].isDefault {
      assert forall i :: 0 <= i < |rest| ==> !rest[i].isDefault;
    }
  }

  /** The older `addAddress` pushes a flagged entry without clearing the
      existing default, so a book can end up with two defaults. */
  lemma FlaggedPushCanDuplicateDefault(book: seq<Address>, a: Address)
    requires |book| > 0 && book[0].isDefault && a.isDefault
    ensures !AtMostOneDefault(book + [a])
  {
    assert (book + [a])[0] == book[0] && (book + [a])[|book|] == a;
  }

  /** `login`'s decision: unknown e-mail, then a digest mismatch. */
  function LoginOutcome(users: seq<User>, email: string, password: string, hash: string -> string): (r: Result<Account, AuthError>)
    ensures r == Err(UserNotFound) <==> UserIndex(users, email).None?
    ensures r == Err(InvalidCredentials) <==>
      UserIndex(users, email).Some? && users[UserIndex(users, email).value].pass != Some(hash(password))
    ensures r.Ok? ==> exists i :: 0 <= i < |users| && users[i].email == email && users[i].pass == Some(hash(password))
                                  && r.value == Account(users[i].id, users[i].name, email)
    ensures UserIndex(users, email).Some? && users[UserIndex(users, email).value].pass == Some(hash(password)) ==>
      var u := users[UserIndex(users, email).value];
      r == Ok(Account(u.id, u.name, email))
  {
    match UserIndex(users, email)
    case None => Err(UserNotFound)
    case Some(i) =>
      if users[i].pass != Some(hash(password)) then Err(InvalidCredentials)
      else Ok(Account(users[i].id, users[i].name, email))
  }

  /** A user with only a plain `password` and no digest can never log in. */
  lemma PlainPasswordNeverLogsIn(users: seq<User>, email: string, password: string, hash: string -> string)
    requires UserIndex(users, email).Some? && users[UserIndex(users, email).value].pass.None?
    ensures LoginOutcome(users, email, password, hash) == Err(InvalidCredentials)
  {
  }

  /** None of the demo users, who carry only a plain `password`, can log in. */
  lemma SeedUsersNeverLogIn(email: string, password: string, hash: string -> string)
    ensures LoginOutcome(DemoUsers, email, password, hash).Err?
  {
    match UserIndex(DemoUsers, email)
    case None =>
    case Some(i) =>
      assert DemoUsers[i].pass.None?;
      PlainPasswordNeverLogsIn(DemoUsers, email, password, hash);
  }

  /** `Math.floor(100000 + Math.random() * 900000)` for `rand` in [0, 1). */
  function SixDigitCode(rand: real): (n: nat)
    requires 0.0 <= rand < 1.0
    ensures 100000 <= n <= 999999
  {
    (100000.0 + rand * 900000.0).Floor
  }

  /** The reset code as text: six decimal digits that read back as the number. */
  lemma ResetCodeText(rand: real)
    requires 0.0 <= rand < 1.0
    ensures |JsNumber.NatToString(SixDigitCode(rand))| == 6
    ensures JsNumber.DecimalValue(JsNumber.NatToString(SixDigitCode(rand))) == SixDigitCode(rand)
  {
    var n := SixDigitCode(rand);
    assert JsNumber.Pow10(5) == 100000 && JsNumber.Pow10(6) == 1000000;
    JsNumber.NatToStringLength(n, 6);
    JsNumber.DecimalRoundTrip(n);
  }

  /** The user list, the current login, the order log and the reset codes, as
      held in storage. */
  class AccountStore {
    var users: seq<User>
    /** The `{email}` record under the current-login key. */
    var current: Option<string>
    var orders: seq<Order>
    var resets: map<string, ResetRecord>

    ghost predicate DefaultsConsistent()
      reads this
    {
      forall k :: 0 <= k < |users| ==> AtMostOneDefault(users[k].addresses)
    }

    ghost predicate UniqueEmails()
      reads this
    {
      forall i, j :: 0 <= i < j < |users| ==> users[i].email != users[j].email
    }

    constructor (seed: seq<User>)
      ensures users == seed && current == None && orders == [] && resets == map[]
    {
      users := seed;
      current := None;
      orders := [];
      resets := map[];
    }

    /** `register`: reject an invalid e-mail, then a short password, then a
        taken e-mail; otherwise append the user and log them in. */
    method Register(name: string, email: string, password: string, hash: string -> string,
                    token: string, today: string, now: int) returns (r: Result<Account, AuthError>)
      modifies this
      ensures !IsEmail(email) ==> r == Err(InvalidEmail)
      ensures IsEmail(email) && !StrongPassword(password) ==> r == Err(ShortPassword)
      ensures IsEmail(email) && StrongPassword(password) && UserIndex(old(users), email).Some? ==> r == Err(EmailTaken)
      ensures IsEmail(email) && StrongPassword(password) && UserIndex(old(users), email).None? ==> r.Ok?
      ensures r.Err? ==> users == old(users) && current == old(current)
      ensures r.Ok? ==>
        && r.value == Account("u-" + token, name, email)
        && users == old(users) + [User("u-" + token, name, email, Some(hash(password)), None, [], today, Some(0), Some("Bronze"), Some(now))]
        && current == Some(email)
      ensures orders == old(orders) && resets == old(resets)
      ensures old(UniqueEmails()) ==> UniqueEmails()
      ensures old(DefaultsConsistent()) ==> DefaultsConsistent()
    {
      if !IsEmail(email) {
        return Err(InvalidEmail);
      }
      if !StrongPassword(password) {
        return Err(ShortPassword);
      }
      if UserIndex(users, email).Some? {
        return Err(EmailTaken);
      }
      var user := User("u-" + token, name, email, Some(hash(password)), None, [], today, Some(0), Some("Bronze"), Some(now));
      users := users + [user];
      current := Some(email);
      r := Ok(Account(user.id, name, email));
    }

    /** `login`: on success the e-mail becomes the current login. */
    method Login(email: string, password: string, hash: string -> string) returns (r: Result<Account, AuthError>)
      modifies this`current
      ensures r == LoginOutcome(users, email, password, hash)
      ensures current == if r.Ok? then Some(email) else old(current)
    {
      r := LoginOutcome(users, email, password, hash);
      if r.Ok? {
        current := Some(email);
      }
    }

    /** `logout`. */
    method Logout()
      modifies this`current
      ensures current == None
    {
      current := None;
    }

    /** `currentUser`: the logged-in user without `pass`, or null. */
    function CurrentUser(): (p: Option<Profile>)
      reads this
      ensures p.None? <==> current.None? || UserIndex(users, current.value).None?
      ensures p.Some? ==> p.value.email == current.value && p.value == Strip(users[UserIndex(users, current.value).value])
    {
      match current
      case None => None
      case Some(email) =>
        match UserIndex(users, email)
        case None => None
        case Some(i) => Some(Strip(users[i]))
    }

    /** `demoLogin`: log in as a known user without any password check. */
    method DemoLogin(email: string) returns (p: Option<Profile>)
      modifies this`current
      ensures UserIndex(users, email).None? ==> p.None? && current == old(current)
      ensures UserIndex(users, email).Some? ==>
        current == Some(email) && p == CurrentUser() && p.Some? && p.value.email == email
    {
      if UserIndex(users, email).None? {
        return None;
      }
      current := Some(email);
      p := CurrentUser();
    }

    /** `addAddress` (the older API): push `{id, ...addr}` without touching the
        other defaults. */
    method AddAddress(data: AddressInput, token: string) returns (r: Option<Address>)
      modifies this`users
      ensures old(current).None? || UserIndex(old(users), old(current).value).None? ==> r.None? && users == old(users)
      ensures old(current).Some? && UserIndex(old(users), old(current).value).Some? ==>
        var k := UserIndex(old(users), old(current).value).value;
        var a := Address(data.id.GetOr("addr-" + token), data.details, data.isDefault.GetOr(false), None, None);
        r == Some(a) && users == old(users)[k := old(users)[k].(addresses := old(users)[k].addresses + [a])]
      ensures old(DefaultsConsistent()) && data.isDefault != Some(true) ==> DefaultsConsistent()
      ensures old(UniqueEmails()) ==> UniqueEmails()
    {
      if current.None? {
        return None;
      }
      var idx := UserIndex(users, current.value);
      if idx.None? {
        return None;
      }
      var k := idx.value;
      var a := Address(data.id.GetOr("addr-" + token), data.details, data.isDefault.GetOr(false), None, None);
      users := users[k := users[k].(addresses := users[k].addresses + [a])];
      r := Some(a);
    }

    /** `removeAddress` (the older API): drop every address with that id. */
    method RemoveAddress(id: string) returns (ok: bool)
      modifies this`users
      ensures ok <==> old(current).Some? && UserIndex(old(users), old(current).value).Some?
      ensures !ok ==> users == old(users)
      ensures ok ==> var k := UserIndex(old(users), old(current).value).value;
        users == old(users)[k := old(users)[k].(addresses := Filter(OtherAddress(id), old(users)[k].addresses))]
      ensures old(DefaultsConsistent()) ==> DefaultsConsistent()
      ensures old(UniqueEmails()) ==> UniqueEmails()
    {
      if current.None? {
        return false;
      }
      var idx := UserIndex(users, current.value);
      if idx.None? {
        return false;
      }
      var k := idx.value;
      if AtMostOneDefault(users[k].addresses) {
        FilterKeepsOneDefault(id, users[k].addresses);
      }
      users := users[k := users[k].(addresses := Filter(OtherAddress(id), users[k].addresses))];
      ok := true;
    }

    /** `addUserAddress`: the first address, or one flagged `isDefault`, becomes
        the default; a flagged one first clears every other default. */
    method AddUserAddress(data: AddressInput, token: string, createdAt: string) returns (r: Result<Address, AuthError>)
      modifies this`users
      ensures old(CurrentUser()).None? ==> r == Err(NoCurrentUser) && users == old(users)
      ensures old(CurrentUser()).Some? ==>
        var k := UserIndex(old(users), old(current).value).value;
        var before := old(users)[k].addresses;
        var flagged := data.isDefault == Some(true);
        var a := Address(data.id.GetOr("addr-" + token), data.details, |before| == 0 || flagged, Some(createdAt), None);
        r == Ok(a) &&
        users == old(users)[k := old(users)[k].(addresses := (if |before| > 0 && flagged then ClearDefaults(before) else before) + [a])]
      ensures old(DefaultsConsistent()) ==> DefaultsConsistent()
      ensures old(UniqueEmails()) ==> UniqueEmails()
    {
      var p := CurrentUser();
      if p.None? {
        return Err(NoCurrentUser);
      }
      var k := UserIndex(users, p.value.email).value;
      var before := users[k].addresses;
      var flagged := data.isDefault == Some(true);
      var book := before;
      var isDefault := false;
      if |before| == 0 {
        isDefault := true;
      } else if flagged {
        book := ClearDefaults(before);
        isDefault := true;
      }
      var a := Address(data.id.GetOr("addr-" + token), data.details, isDefault, Some(createdAt), None);
      users := users[k := users[k].(addresses := book + [a])];
      r := Ok(a);
    }

    /** `updateUserAddress`: a flagged update clears every default first; the
        entry is then merged with the new fields. */
    method UpdateUserAddress(addressId: string, data: AddressInput, updatedAt: string) returns (r: Result<Address, AuthError>)
      modifies this`users
      ensures old(CurrentUser()).None? ==> r == Err(NoCurrentUser) && users == old(users)
      ensures old(CurrentUser()).Some? ==>
        var k := UserIndex(old(users), old(current).value).value;
        var before := old(users)[k].addresses;
        match AddressIndex(before, addressId)
        case None => r == Err(AddressToEditNotFound) && users == old(users)
        case Some(j) =>
          var book := if data.isDefault == Some(true) then ClearDefaults(before) else before;
          var a := Merge(book[j], data, updatedAt);
          r == Ok(a) && users == old(users)[k := old(users)[k].(addresses := book[j := a])]
      ensures old(DefaultsConsistent()) ==> DefaultsConsistent()
      ensures old(UniqueEmails()) ==> UniqueEmails()
    {
      var p := CurrentUser();
      if p.None? {
        return Err(NoCurrentUser);
      }
      var k := UserIndex(users, p.value.email).value;
      var before := users[k].addresses;
      var j := AddressIndex(before, addressId);
      if j.None? {
        return Err(AddressToEditNotFound);
      }
      var book := before;
      if data.isDefault == Some(true) {
        book := ClearDefaults(before);
      }
      var a := Merge(book[j.value], data, updatedAt);
      users := users[k := users[k].(addresses := book[j.value := a])];
      r := Ok(a);
    }

    /** `deleteUserAddress`: remove the entry; when it was the default and
        others remain, the first remaining one becomes the default. */
    method DeleteUserAddress(addressId: string) returns (r: Result<(), AuthError>)
      modifies this`users
      ensures old(CurrentUser()).None? ==> r == Err(NoCurrentUser) && users == old(users)
      ensures old(CurrentUser()).Some? ==>
        var k := UserIndex(old(users), old(current).value).value;
        var before := old(users)[k].addresses;
        match AddressIndex(before, addressId)
        case None => r == Err(AddressToDeleteNotFound) && users == old(users)
        case Some(j) => r == Ok(()) && users == old(users)[k := old(users)[k].(addresses := AfterDelete(before, j))]
      ensures old(DefaultsConsistent()) ==> DefaultsConsistent()
      ensures old(UniqueEmails()) ==> UniqueEmails()
    {
      var p := CurrentUser();
      if p.None? {
        return Err(NoCurrentUser);
      }
      var k := UserIndex(users, p.value.email).value;
      var before := users[k].addresses;
      var j := AddressIndex(before, addressId);
      if j.None? {
        return Err(AddressToDeleteNotFound);
      }
      if AtMostOneDefault(before) {
        AfterDeleteKeepsOneDefault(before, j.value);
      }
      users := users[k := users[k].(addresses := AfterDelete(before, j.value))];
      r := Ok(());
    }

    /** `saveOrder`: append to the log. */
    method SaveOrder(order: Order)
      modifies this`orders
      ensures orders == old(orders) + [order]
      ensures forall email :: ListOrders(email) == old(ListOrders(email)) + (if order.email == email then [order] else [])
    {
      orders := orders + [order];
      forall email ensures ListOrders(email) == old(ListOrders(email)) + (if order.email == email then [order] else []) {
        FilterSnoc(OrderOf(email), old(orders), order);
      }
    }

    /** `listOrders`: the orders of that e-mail, in the order they were saved. */
    function ListOrders(email: string): (r: seq<Order>)
      reads this
      ensures forall i :: 0 <= i < |r| ==> r[i].email == email && r[i] in orders
      ensures forall i :: 0 <= i < |orders| && orders[i].email == email ==> orders[i] in r
      ensures SelectedAt(r, orders, Positions(OrderOf(email), orders))
    {
      FilterAtPositions(OrderOf(email), orders);
      Filter(OrderOf(email), orders)
    }

    /** `createResetCode`: a six-digit code for a known e-mail, valid ten minutes. */
    method CreateResetCode(email: string, rand: real, now: int) returns (r: Result<string, AuthError>)
      requires 0.0 <= rand < 1.0
      modifies this`resets
      ensures UserIndex(users, email).None? ==> r == Err(EmailNotFound) && resets == old(resets)
      ensures UserIndex(users, email).Some? ==>
        r == Ok(JsNumber.NatToString(SixDigitCode(rand)))
        && resets == old(resets)[email := ResetRecord(r.value, now + ResetLifetime)]
      ensures r.Ok? ==> |r.value| == 6 && 100000 <= JsNumber.DecimalValue(r.value) <= 999999
    {
      if UserIndex(users, email).None? {
        return Err(EmailNotFound);
      }
      var code := JsNumber.NatToString(SixDigitCode(rand));
      ResetCodeText(rand);
      resets := resets[email := ResetRecord(code, now + ResetLifetime)];
      r := Ok(code);
    }

    /** `resetPassword`: a missing or expired record, a wrong code, a short
        password and an unknown user are rejected in that order; success stores
        the new digest and deletes the record. */
    method ResetPassword(email: string, code: string, newPass: string, now: int, hash: string -> string) returns (r: Result<(), AuthError>)
      modifies this`users, this`resets
      ensures email !in old(resets) || old(resets)[email].expires < now ==> r == Err(CodeExpired)
      ensures email in old(resets) && old(resets)[email].expires >= now && old(resets)[email].code != code ==> r == Err(InvalidCode)
      ensures email in old(resets) && old(resets)[email].expires >= now && old(resets)[email].code == code && !StrongPassword(newPass) ==>
        r == Err(PasswordTooShort)
      ensures email in old(resets) && old(resets)[email].expires >= now && old(resets)[email].code == code && StrongPassword(newPass) ==>
        r == (if UserIndex(old(users), email).None? then Err(UserNotFound) else Ok(()))
      ensures r.Err? ==> users == old(users) && resets == old(resets)
      ensures r.Ok? ==>
        var k := UserIndex(old(users), email).value;
        users == old(users)[k := old(users)[k].(pass := Some(hash(newPass)))] && resets == old(resets) - {email}
      ensures r.Ok? ==> email !in resets
      ensures old(DefaultsConsistent()) ==> DefaultsConsistent()
      ensures old(UniqueEmails()) ==> UniqueEmails()
    {
      if email !in resets || resets[email].expires < now {
        return Err(CodeExpired);
      }
      if resets[email].code != code {
        return Err(InvalidCode);
      }
      if !StrongPassword(newPass) {
        return Err(PasswordTooShort);
      }
      var idx := UserIndex(users, email);
      if idx.None? {
        return Err(UserNotFound);
      }
      var k := idx.value;
      users := users[k := users[k].(pass := Some(hash(newPass)))];
      resets := resets - {email};
      r := Ok(());
    }
  }

  function OrderOf(email: string): Order -> bool {
    (o: Order) => o.email == email
  }

  lemma {:induction false} FilterKeepsOneDefault(id: string, addresses: seq<Address>)
    requires AtMostOneDefault(addresses)
    ensures AtMostOneDefault(Filter(OtherAddress(id), addresses))
  {
    if addresses != [] {
      var rest := addresses[1..];
      FilterKeepsOneDefault(id, rest);
      var t := Filter(OtherAddress(id), rest);
      assert Filter(OtherAddress(id), addresses) == (if addresses[0].id != id then [addresses[0]] else []) + t;
      if addresses[0].isDefault {
        forall k | 0 <= k < |t| ensures !t[k].isDefault {
          var m :| 0 <= m < |rest| && rest[m] == t[k];
          assert addresses[m + 1] == t[k];
        }
      }
    }
  }
}
