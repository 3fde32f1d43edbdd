/**
 * The account registry (server/accounts.js): email -> lowercase nick, and
 * lowercase nick -> {email, nick}. Fetching the Persona verdict and saving
 * to disk are not modelled.
 */
module Accounts {
  import opened Wrappers
  import opened Text

  datatype Account = Account(email: string, nick: string)

  datatype Failure =
    | NoSuchEmail(email: string)
    | NoSuchAccountNick(nick: string)
    | EmailTaken(email: string)
    | NickTaken(nick: string)

  datatype Result<T> = Ok(value: T) | Err(failure: Failure)

  datatype Outcome = Done | Threw(failure: Failure)

  /**
   * The two maps agree: every email's nick names an account with that email,
   * every account is keyed by its lowercased nick, and its email maps back to
   * that key.
   */
  predicate Consistent(emails: map<string, string>, accounts: map<string, Account>) {
    && (forall e :: e in emails ==> emails[e] in accounts && accounts[emails[e]].email == e)
    && (forall n :: n in accounts ==>
          Lower(accounts[n].nick) == n && accounts[n].email in emails && emails[accounts[n].email] == n)
  }

  class Registry {
    var accountEmails: map<string, string>
    var accounts: map<string, Account>

    ghost predicate Valid()
      reads this
    {
      Consistent(accountEmails, accounts)
    }

    constructor ()
      ensures accountEmails == map[] && accounts == map[] && Valid()
    {
      accountEmails := map[];
      accounts := map[];
    }

    /** `haveEmail(email)`. */
    predicate HaveEmail(email: string)
      reads this
    {
      email in accountEmails
    }

    /** `haveNick(nick)`: the lowercased nick is a key. */
    predicate HaveNick(nick: string)
      reads this
    {
      Lower(nick) in accounts
    }

    /** `getNick(email)`: the stored lowercase nick; throws for an unknown email. */
    function GetNick(email: string): (r: Result<string>)
      reads this
      ensures !HaveEmail(email) <==> r == Err(NoSuchEmail(email))
      ensures HaveEmail(email) ==> r == Ok(accountEmails[email])
      ensures Valid() && HaveEmail(email) ==> HaveNick(r.value) && accounts[Lower(r.value)].email == email
    {
      if HaveEmail(email) then
        assert Valid() ==> Lower(accountEmails[email]) == accountEmails[email];
        Ok(accountEmails[email])
      else Err(NoSuchEmail(email))
    }

    /** `getByNick(nick)`: the account under the lowercased nick; throws when there is none. */
    function GetByNick(nick: string): (r: Result<Account>)
      reads this
      ensures !HaveNick(nick) <==> r == Err(NoSuchAccountNick(Lower(nick)))
      ensures HaveNick(nick) ==> r == Ok(accounts[Lower(nick)])
    {
      var key := Lower(nick);
      LowerIdempotent(nick);
      if key !in accounts then Err(NoSuchAccountNick(key)) else Ok(accounts[key])
    }

    /**
     * `getByEmail(email)`: the account whose nick the email maps to; throws for
     * an unknown email. In a consistent registry that account has this email.
     */
    function GetByEmail(email: string): (r: Result<Account>)
      reads this
      ensures !HaveEmail(email) ==> r == Err(NoSuchEmail(email))
      ensures HaveEmail(email) ==> r == GetByNick(accountEmails[email])
      ensures Valid() && HaveEmail(email) ==> r.Ok? && r.value.email == email
    {
      if !HaveEmail(email) then Err(NoSuchEmail(email))
      else GetByNick(GetNick(email).value)
    }

    /**
     * `add(email, nick)` as written: throws when the email is registered, or
     * when the EMAIL (not the nick) is an account nick; otherwise maps the
     * email to the lowercased nick and stores the account under it.
     */
    method Add(email: string, nick: string) returns (r: Outcome)
      modifies this
      ensures old(HaveEmail(email)) ==> r == Threw(EmailTaken(email))
      ensures !old(HaveEmail(email)) && old(HaveNick(email)) ==> r == Threw(NickTaken(nick))
      ensures r.Threw? ==> accountEmails == old(accountEmails) && accounts == old(accounts)
      ensures r.Done? <==> !old(HaveEmail(email)) && !old(HaveNick(email))
      ensures r.Done? ==> accountEmails == old(accountEmails)[email := Lower(nick)]
                          && accounts == old(accounts)[Lower(nick) := Account(email, nick)]
      ensures r.Done? ==> HaveEmail(email) && HaveNick(nick) && GetByEmail(email) == Ok(Account(email, nick))
    {
      if HaveEmail(email) {
        return Threw(EmailTaken(email));
      }
      if HaveNick(email) {
        return Threw(NickTaken(nick));
      }
      accountEmails := accountEmails[email := Lower(nick)];
      accounts := accounts[Lower(nick) := Account(email, nick)];
      LowerIdempotent(nick);
      r := Done;
    }

    /** `add` with the nick guard testing the nick: it keeps the registry consistent. */
    method AddChecked(email: string, nick: string) returns (r: Outcome)
      requires Valid()
      modifies this
      ensures Valid()
      ensures old(HaveEmail(email)) ==> r == Threw(EmailTaken(email))
      ensures !old(HaveEmail(email)) && old(HaveNick(nick)) ==> r == Threw(NickTaken(nick))
      ensures r.Threw? ==> accountEmails == old(accountEmails) && accounts == old(accounts)
      ensures r.Done? <==> !old(HaveEmail(email)) && !old(HaveNick(nick))
      ensures r.Done? ==> accountEmails == old(accountEmails)[email := Lower(nick)]
                          && accounts == old(accounts)[Lower(nick) := Account(email, nick)]
      ensures r.Done? ==> HaveEmail(email) && HaveNick(nick) && GetByEmail(email) == Ok(Account(email, nick))
    {
      if HaveEmail(email) {
        return Threw(EmailTaken(email));
      }
      if HaveNick(nick) {
        return Threw(NickTaken(nick));
      }
      AddKeepsConsistent(accountEmails, accounts, email, nick);
      accountEmails := accountEmails[email := Lower(nick)];
      accounts := accounts[Lower(nick) := Account(email, nick)];
      LowerIdempotent(nick);
      r := Done;
    }
  }

  /** Nick lookups ignore case. */
  lemma NickLookupIgnoresCase(reg: Registry, a: string, b: string)
    requires Lower(a) == Lower(b)
    ensures reg.HaveNick(a) <==> reg.HaveNick(b)
    ensures reg.GetByNick(a) == reg.GetByNick(b)
  {
  }

  /** Adding a fresh email under a free nick keeps the two maps consistent. */
  lemma AddKeepsConsistent(emails: map<string, string>, accounts: map<string, Account>, email: string, nick: string)
    requires Consistent(emails, accounts)
    requires email !in emails && Lower(nick) !in accounts
    ensures Consistent(emails[email := Lower(nick)], accounts[Lower(nick) := Account(email, nick)])
  {
    var e2, a2 := emails[email := Lower(nick)], accounts[Lower(nick) := Account(email, nick)];
    LowerIdempotent(nick);
    forall e | e in e2
      ensures e2[e] in a2 && a2[e2[e]].email == e
    {
      if e != email {
        assert emails[e] != Lower(nick);
      }
    }
    forall n | n in a2
      ensures Lower(a2[n].nick) == n && a2[n].email in e2 && e2[a2[n].email] == n
    {
      if n != Lower(nick) {
        assert accounts[n].email != email;
      }
    }
  }

  /**
   * With the guard as written (it tests the email, not the nick), a new
   * email may take any existing nick, in any casing, the same one included:
   * the old email then maps to the new owner's account. Here the nick is
   * taken in upper case.
   */
  lemma AddOverwritesAccount()
    ensures var emails := map["a@x" := "bob"];
            var accounts := map["bob" := Account("a@x", "Bob")];
            && Consistent(emails, accounts)
            && "c@x" !in emails && Lower("c@x") !in accounts
            && var emails2 := emails["c@x" := Lower("BOB")];
               var accounts2 := accounts[Lower("BOB") := Account("c@x", "BOB")];
               && !Consistent(emails2, accounts2)
               && accounts2[emails2["a@x"]] == Account("c@x", "BOB")
  {
    var emails := map["a@x" := "bob"];
    var accounts := map["bob" := Account("a@x", "Bob")];
    assert Lower("Bob") == "bob" by {
      assert LowerChar('B') == 'b';
    }
    assert Lower("BOB") == "bob" by {
      assert LowerChar('B') == 'b' && LowerChar('O') == 'o';
    }
    assert Lower("c@x") == "c@x";
    assert Consistent(emails, accounts);
    var emails2 := emails["c@x" := "bob"];
    var accounts2 := accounts["bob" := Account("c@x", "BOB")];
    assert emails2["a@x"] == "bob" && accounts2["bob"].email != "a@x";
  }
}
