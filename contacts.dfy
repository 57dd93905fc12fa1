// Creating a group from the phone's contacts (pages/CreateGroup.js):
// phone numbers are normalised to digits with a Finnish country code, the
// contacts are matched against the registered users by normalised number,
// the user toggles matched contacts in and out of the selection, and the
// group is written with the selected phones as its members. Reading the
// contacts and the users, and the write itself, are not part of this
// model; their results are parameters and the write is returned.

module Contacts {
  import opened Js

  predicate IsDigit(c: char)
  {
    '0' <= c <= '9'
  }

  /** `number.replace(/\D/g, "")`: the digits of `s`, in order. */
  function Digits(s: string): (r: string)
    ensures forall i :: 0 <= i < |r| ==> IsDigit(r[i])
    ensures |r| <= |s|
  {
    if s == [] then []
    else (if IsDigit(s[0]) then [s[0]] else []) + Digits(s[1..])
  }

  /** A character survives exactly when it is a digit of the input. */
  lemma {:induction false} DigitsMembers(s: string, c: char)
    ensures c in Digits(s) <==> c in s && IsDigit(c)
  {
    if s != [] {
      DigitsMembers(s[1..], c);
      assert s == [s[0]] + s[1..];
    }
  }

  /** The digits of a string are those of its first part followed by those
      of the rest: every digit is kept, in order. */
  lemma {:induction false} DigitsAppend(a: string, b: string)
    ensures Digits(a + b) == Digits(a) + Digits(b)
  {
    if a != [] {
      assert (a + b)[1..] == a[1..] + b;
      DigitsAppend(a[1..], b);
    } else {
      assert a + b == b;
    }
  }

  /** Lines 37-44. `None` is a missing number (`undefined` or `null`). */
  function NormalizePhone(number: Option<string>): (r: string)
    ensures number.None? || number.value == "" ==> r == ""
    ensures forall i :: 0 <= i < |r| ==> IsDigit(r[i])
    ensures number.Some? && number.value != "" ==>
      var d := Digits(number.value);
      if |d| > 0 && d[0] == '0' then r == "358" + d[1..] else r == d
  {
    if number.None? || number.value == "" then ""
    else
      var formatted := Digits(number.value);
      if |formatted| > 0 && formatted[0] == '0' then "358" + formatted[1..] else formatted
  }

  lemma {:induction false} DigitsOfDigits(s: string)
    requires forall i :: 0 <= i < |s| ==> IsDigit(s[i])
    ensures Digits(s) == s
  {
    if s != [] {
      DigitsOfDigits(s[1..]);
      assert s == [s[0]] + s[1..];
    }
  }

  /** A normalised number never begins with '0', so normalising it again
      changes nothing. */
  lemma NormalizeIdempotent(number: Option<string>)
    ensures var r := NormalizePhone(number);
      (r == [] || r[0] != '0') && NormalizePhone(Some(r)) == r
  {
    var r := NormalizePhone(number);
    DigitsOfDigits(r);
  }

  // ---------------------------------------------------------------------
  // Matching contacts against registered users

  /** One entry of a contact's `phoneNumbers`. */
  datatype PhoneNumber = PhoneNumber(number: Option<string>)

  /** A phone contact: `phoneNumbers` may be missing. */
  datatype Contact = Contact(id: string, name: string, phoneNumbers: Option<seq<PhoneNumber>>)

  /** A registered user's document: `phone` and `name` may be missing. */
  datatype UserDoc = UserDoc(phone: Option<string>, name: Option<string>)

  /** Lines 52-55: a user with the phone normalised. */
  datatype DbUser = DbUser(phone: string, dbName: Option<string>)

  /** Lines 62-67: a contact found among the users. */
  datatype Match = Match(id: string, contactName: string, dbName: Option<string>, phone: string)

  function UsersFromDb(docs: seq<UserDoc>): (r: seq<DbUser>)
    ensures |r| == |docs|
    ensures forall i :: 0 <= i < |r| ==> r[i] == DbUser(NormalizePhone(docs[i].phone), docs[i].name)
  {
    seq(|docs|, i requires 0 <= i < |docs| => DbUser(NormalizePhone(docs[i].phone), docs[i].name))
  }

  /** `contact.phoneNumbers?.[0]?.number`. */
  function FirstNumber(c: Contact): Option<string>
  {
    if c.phoneNumbers.Some? && |c.phoneNumbers.value| > 0 then c.phoneNumbers.value[0].number else None
  }

  /** `usersFromDB.find((user) => user.phone === phone)`. */
  function FindUser(users: seq<DbUser>, phone: string): (r: Option<DbUser>)
  {
    if users == [] then None
    else if users[0].phone == phone then Some(users[0])
    else FindUser(users[1..], phone)
  }

  /** The user found is the first one with that phone; none is found
      exactly when no user has it. */
  lemma {:induction false} FindUserFirst(users: seq<DbUser>, phone: string)
    ensures FindUser(users, phone).None? <==> forall i :: 0 <= i < |users| ==> users[i].phone != phone
    ensures FindUser(users, phone).Some? ==>
      exists i :: 0 <= i < |users| && users[i] == FindUser(users, phone).value && users[i].phone == phone
        && forall j :: 0 <= j < i ==> users[j].phone != phone
  {
    if users != [] {
      FindUserFirst(users[1..], phone);
      if users[0].phone != phone {
        if FindUser(users, phone).Some? {
          var i :| 0 <= i < |users[1..]| && users[1..][i] == FindUser(users, phone).value && users[1..][i].phone == phone
            && forall j :: 0 <= j < i ==> users[1..][j].phone != phone;
          assert users[i + 1] == users[1..][i];
          forall j | 0 <= j < i + 1 ensures users[j].phone != phone {
            if j > 0 { assert users[j] == users[1..][j - 1]; }
          }
        }
        forall i | 0 <= i < |users| && FindUser(users, phone).None? ensures users[i].phone != phone {
          if i > 0 { assert users[i] == users[1..][i - 1]; }
        }
      } else {
        assert users[0] == FindUser(users, phone).value;
      }
    }
  }

  /** Lines 59-69 for one contact: its match, or None (`null`). */
  function MatchContact(c: Contact, users: seq<DbUser>): Option<Match>
  {
    var phone := NormalizePhone(FirstNumber(c));
    match FindUser(users, phone)
    case None => None
    case Some(u) => Some(Match(c.id, c.name, u.dbName, phone))
  }

  /** Lines 58-70: `contactList.map(...).filter(Boolean)`. */
  function MatchContacts(contacts: seq<Contact>, users: seq<DbUser>): seq<Match>
  {
    if contacts == [] then []
    else
      (match MatchContact(contacts[0], users) case None => [] case Some(m) => [m])
        + MatchContacts(contacts[1..], users)
  }

  /** Matching keeps the contacts' order: the matches of a longer list are
      those of its first part followed by those of the rest. */
  lemma {:induction false} MatchContactsAppend(xs: seq<Contact>, ys: seq<Contact>, users: seq<DbUser>)
    ensures MatchContacts(xs + ys, users) == MatchContacts(xs, users) + MatchContacts(ys, users)
  {
    if xs != [] {
      assert (xs + ys)[1..] == xs[1..] + ys;
      MatchContactsAppend(xs[1..], ys, users);
    } else {
      assert xs + ys == ys;
    }
  }

  /** No more matches than contacts; a match is exactly a contact whose
      normalised first number is some user's phone, named by the first such
      user. */
  lemma {:induction false} MatchContactsMembers(contacts: seq<Contact>, users: seq<DbUser>, m: Match)
    ensures |MatchContacts(contacts, users)| <= |contacts|
    ensures m in MatchContacts(contacts, users) <==>
      exists i :: 0 <= i < |contacts| && MatchContact(contacts[i], users) == Some(m)
  {
    if contacts != [] {
      MatchContactsMembers(contacts[1..], users, m);
      var tail := contacts[1..];
      if exists i :: 0 <= i < |tail| && MatchContact(tail[i], users) == Some(m) {
        var i :| 0 <= i < |tail| && MatchContact(tail[i], users) == Some(m);
        assert contacts[i + 1] == tail[i];
      }
      if exists i :: 0 <= i < |contacts| && MatchContact(contacts[i], users) == Some(m) {
        var i :| 0 <= i < |contacts| && MatchContact(contacts[i], users) == Some(m);
        if i > 0 { assert tail[i - 1] == contacts[i]; }
      }
    }
  }

  /** A match carries the contact's own id and name, the phone it was
      matched on, and the name of the first user with that phone. */
  lemma MatchContactMeaning(c: Contact, users: seq<DbUser>)
    ensures var phone := NormalizePhone(FirstNumber(c));
      MatchContact(c, users).Some? <==> exists i :: 0 <= i < |users| && users[i].phone == phone
    ensures var phone := NormalizePhone(FirstNumber(c));
      MatchContact(c, users).Some? ==>
        var m := MatchContact(c, users).value;
        m.id == c.id && m.contactName == c.name && m.phone == phone &&
        exists i :: 0 <= i < |users| && users[i].phone == phone && users[i].dbName == m.dbName &&
          forall j :: 0 <= j < i ==> users[j].phone != phone
  {
    FindUserFirst(users, NormalizePhone(FirstNumber(c)));
  }

  /** A contact without a number normalises to "", so it matches a
      registered user whose phone is missing too. */
  lemma NumberlessContactMatchesPhonelessUser(c: Contact, docs: seq<UserDoc>, k: int)
    requires FirstNumber(c).None?
    requires 0 <= k < |docs| && docs[k].phone.None?
    ensures MatchContact(c, UsersFromDb(docs)).Some?
    ensures MatchContact(c, UsersFromDb(docs)).value.phone == ""
  {
    var users := UsersFromDb(docs);
    assert users[k].phone == "";
    FindUserFirst(users, "");
  }

  // ---------------------------------------------------------------------
  // Selection and the group written

  /** `prev.filter((u) => u !== user)`. */
  function Without<T(==)>(prev: seq<T>, user: T): (r: seq<T>)
    ensures user !in r
    ensures forall i :: 0 <= i < |r| ==> r[i] in prev
    ensures forall i :: 0 <= i < |prev| && prev[i] != user ==> prev[i] in r
  {
    if prev == [] then []
    else (if prev[0] == user then [] else [prev[0]]) + Without(prev[1..], user)
  }

  /** Lines 75-79. */
  function ToggleSelection<T(==)>(prev: seq<T>, user: T): seq<T>
  {
    if user in prev then Without(prev, user) else prev + [user]
  }

  lemma {:induction false} WithoutAbsent<T>(prev: seq<T>, user: T)
    requires user !in prev
    ensures Without(prev, user) == prev
  {
    if prev != [] {
      WithoutAbsent(prev[1..], user);
      assert prev == [prev[0]] + prev[1..];
    }
  }

  /** A selected user is taken out, every copy of it, and the others keep
      their order; an unselected user is added at the end; toggling an
      unselected user twice gives back the selection. */
  lemma ToggleSelectionMeaning<T>(prev: seq<T>, user: T)
    ensures user in prev ==> ToggleSelection(prev, user) == Without(prev, user) && user !in ToggleSelection(prev, user)
    ensures user !in prev ==> ToggleSelection(prev, user) == prev + [user]
    ensures user !in prev ==> ToggleSelection(ToggleSelection(prev, user), user) == prev
  {
    if user !in prev {
      var once := prev + [user];
      assert user in once;
      WithoutAppend(prev, [user], user);
      WithoutAbsent(prev, user);
      assert [user][1..] == [];
      assert Without([user], user) == [];
      assert prev + [] == prev;
    }
  }

  lemma {:induction false} WithoutAppend<T>(xs: seq<T>, ys: seq<T>, user: T)
    ensures Without(xs + ys, user) == Without(xs, user) + Without(ys, user)
  {
    if xs != [] {
      assert (xs + ys)[1..] == xs[1..] + ys;
      WithoutAppend(xs[1..], ys, user);
    } else {
      assert xs + ys == ys;
    }
  }

  /** The document written for a new group. */
  datatype NewGroup = NewGroup(name: string, members: seq<string>)

  /** Lines 82-88: nothing is written without a name; otherwise the
      members are the selected users' phones. */
  function CreateGroup(groupName: string, selected: seq<Match>): (r: Option<NewGroup>)
    ensures r.None? <==> groupName == ""
    ensures r.Some? ==> r.value.name == groupName && |r.value.members| == |selected|
    ensures r.Some? ==> forall i :: 0 <= i < |selected| ==> r.value.members[i] == selected[i].phone
  {
    if groupName == "" then None
    else Some(NewGroup(groupName, seq(|selected|, i requires 0 <= i < |selected| => selected[i].phone)))
  }
}
