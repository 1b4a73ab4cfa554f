/**
 * The account handlers: registration refusing a second account for an
 * email, login failing alike for an unknown email and a wrong password, and
 * the two profile updates that each change one field. Users are a map from
 * id to user with an index from email to id; token signing and password
 * hashing are outside the model (a token names its user, and the password
 * check is a parameter).
 */
module UserTable {
  import opened Wrappers
  import opened ExpenseModel

  /** A stored account; `credential` is whatever the store keeps of the password. */
  datatype User = User(id: nat, name: string, email: string, credential: string, currency: Currency)

  /** A signed token for a user id. */
  datatype Token = Token(userId: nat)

  /** The JSON reply: `_id`, `name`, `email`, `currency` when the handler sends it, and `token`. */
  datatype Reply = Reply(id: nat, name: string, email: string, currency: Option<Currency>, token: Token)

  /** The reply that carries the currency (register, login, updateCurrency). */
  function FullReply(u: User): (r: Reply)
    ensures r.id == u.id && r.name == u.name && r.email == u.email
    ensures r.currency == Some(u.currency) && r.token == Token(u.id)
  {
    Reply(u.id, u.name, u.email, Some(u.currency), Token(u.id))
  }

  /** The reply of `updateProfile`, which leaves the currency out. */
  function ProfileReply(u: User): (r: Reply)
    ensures r.id == u.id && r.name == u.name && r.email == u.email
    ensures r.currency.None? && r.token == Token(u.id)
  {
    Reply(u.id, u.name, u.email, None, Token(u.id))
  }

  /** The currency a new account gets; the User schema is not part of this model. */
  const DefaultCurrency := USD

  const UserExists := "User already exists"
  const InvalidCredentials := "Invalid email or password"
  const UserNotFound := "User not found"
  const InvalidCurrency := "Invalid currency"

  /** The `validCurrencies.includes(currency)` check. */
  function CheckCurrency(currency: Option<string>): (r: Option<Currency>)
    ensures r.Some? <==> currency.Some? && currency.value in CurrencyCodes
    ensures r.Some? ==> Code(r.value) == currency.value
  {
    if currency.None? then None else ParseCurrency(currency.value)
  }

  class Users {
    var users: map<nat, User>
    var byEmail: map<string, nat>
    var nextId: nat

    /** Each user is filed under its id and its email; the email index names only stored users. */
    predicate Valid()
      reads this
    {
      && (forall id :: id in users ==> id < nextId && users[id].id == id && users[id].email in byEmail && byEmail[users[id].email] == id)
      && (forall e :: e in byEmail ==> byEmail[e] in users && users[byEmail[e]].email == e)
    }

    constructor()
      ensures Valid() && users == map[] && byEmail == map[] && nextId == 0
    {
      users := map[];
      byEmail := map[];
      nextId := 0;
    }

    /** No two users share an email. */
    lemma EmailsUnique()
      requires Valid()
      ensures forall i, j :: i in users && j in users && users[i].email == users[j].email ==> i == j
    {
      forall i, j | i in users && j in users && users[i].email == users[j].email ensures i == j {
        assert byEmail[users[i].email] == i;
      }
    }

    /** The account with this email, if any. */
    function FindByEmail(email: string): (r: Option<User>)
      requires Valid()
      reads this
      ensures r.Some? <==> exists id :: id in users && users[id].email == email
      ensures r.Some? ==> r.value.id in users && users[r.value.id] == r.value && r.value.email == email
    {
      if email in byEmail then Some(users[byEmail[email]]) else None
    }

    /**
     * `register`: 400 and nothing changed when the email is taken; otherwise
     * 201 and exactly one new user with that name and email, whose reply
     * carries id, name, email, currency and token.
     */
    method Register(name: string, email: string, password: string) returns (r: Response<Reply>)
      requires Valid()
      modifies this
      ensures Valid()
      ensures (exists id :: id in old(users) && old(users)[id].email == email) ==>
        r == Fail(400, UserExists) && users == old(users) && byEmail == old(byEmail) && nextId == old(nextId)
      ensures !(exists id :: id in old(users) && old(users)[id].email == email) ==>
        var u := User(old(nextId), name, email, password, DefaultCurrency);
        && u.id !in old(users) && users == old(users)[u.id := u] && byEmail == old(byEmail)[email := u.id]
        && r == Ok(201, FullReply(u))
    {
      if FindByEmail(email).Some? {
        return Fail(400, UserExists);
      }
      var u := User(nextId, name, email, password, DefaultCurrency);
      users := users[u.id := u];
      byEmail := byEmail[email := u.id];
      nextId := nextId + 1;
      r := Ok(201, FullReply(u));
    }

    /**
     * `login`: an unknown email and a wrong password get the same 401 and
     * message; a match gets that user's reply. Nothing changes.
     */
    method Login(email: string, password: string, matches: (string, string) -> bool) returns (r: Response<Reply>)
      requires Valid()
      ensures r.Fail? <==> FindByEmail(email).None? || !matches(FindByEmail(email).value.credential, password)
      ensures r.Fail? ==> r == Fail(401, InvalidCredentials)
      ensures r.Ok? ==> r.status == 200 && r.value == FullReply(FindByEmail(email).value) && r.value.email == email
    {
      var found := FindByEmail(email);
      if found.None? {
        return Fail(401, InvalidCredentials);
      }
      if !matches(found.value.credential, password) {
        return Fail(401, InvalidCredentials);
      }
      r := Ok(200, FullReply(found.value));
    }

    /**
     * `updateProfile`: 404 and nothing changed for an unknown user; otherwise
     * the name, and only the name, of that one user changes, and the reply
     * leaves the currency out.
     */
    method UpdateProfile(userId: nat, name: string) returns (r: Response<Reply>)
      requires Valid()
      modifies this
      ensures Valid() && byEmail == old(byEmail) && nextId == old(nextId)
      ensures userId !in old(users) ==> r == Fail(404, UserNotFound) && users == old(users)
      ensures userId in old(users) ==>
        var u := old(users)[userId].(name := name);
        users == old(users)[userId := u] && r == Ok(200, ProfileReply(u))
    {
      if userId !in users {
        return Fail(404, UserNotFound);
      }
      var u := users[userId].(name := name);
      users := users[userId := u];
      r := Ok(200, ProfileReply(u));
    }

    /**
     * `updateCurrency`: 400 before any lookup for anything but the seven
     * codes; 404 for an unknown user; otherwise the currency, and only the
     * currency, of that one user changes, and the reply includes it.
     * Nothing changes on either failure.
     */
    method UpdateCurrency(userId: nat, currency: Option<string>) returns (r: Response<Reply>)
      requires Valid()
      modifies this
      ensures Valid() && byEmail == old(byEmail) && nextId == old(nextId)
      ensures CheckCurrency(currency).None? ==> r == Fail(400, InvalidCurrency) && users == old(users)
      ensures CheckCurrency(currency).Some? && userId !in old(users) ==> r == Fail(404, UserNotFound) && users == old(users)
      ensures CheckCurrency(currency).Some? && userId in old(users) ==>
        var u := old(users)[userId].(currency := CheckCurrency(currency).value);
        users == old(users)[userId := u] && r == Ok(200, FullReply(u))
    {
      var c := CheckCurrency(currency);
      if c.None? {
        return Fail(400, InvalidCurrency);
      }
      if userId !in users {
        return Fail(404, UserNotFound);
      }
      var u := users[userId].(currency := c.value);
      users := users[userId := u];
      r := Ok(200, FullReply(u));
    }
  }
}
