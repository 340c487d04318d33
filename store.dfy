/** The in-memory store behind every screen: one list of records per
    resource, the service-order counter, users with their mock password
    hash, and the DMTI correlative. Records are the untyped objects the
    store handles: a map from field names to values, so that a partial
    update is a right-biased union and a record "has" a soft-delete flag
    exactly when it carries the field. */
module Store {
  import opened Base
  import opened Text

  datatype Value =
    | Str(s: string)
    | Num(n: real)
    | Bool(b: bool)
    | List(items: seq<Value>)
    | Object(fields: map<string, Value>)

  type Rec = map<string, Value>

  datatype Resource = Trips | Drivers | Trucks | Trailers | Dmtis | Clients | Users

  /** The outcome of an operation that can be rejected with a message. */
  datatype Outcome<T> = Done(value: T) | Rejected(message: string)

  predicate HasId(r: Rec, id: string) {
    "id" in r && r["id"] == Str(id)
  }

  /** `findIndex` on the id: the first record carrying it. */
  function FindIndex(items: seq<Rec>, id: string): (r: Option<nat>)
    ensures r.Some? ==> r.value < |items| && HasId(items[r.value], id)
    ensures r.Some? ==> forall j :: 0 <= j < r.value ==> !HasId(items[j], id)
    ensures r.None? ==> forall j :: 0 <= j < |items| ==> !HasId(items[j], id)
  {
    if |items| == 0 then None
    else if HasId(items[0], id) then Some(0)
    else
      var rest := FindIndex(items[1..], id);
      assert forall j :: 0 < j < |items| ==> items[j] == items[1..][j - 1];
      if rest.None? then None else Some(rest.value + 1)
  }

  // ---------------------------------------------------------------------
  // The generic operations, on one list
  // ---------------------------------------------------------------------

  /** `{ ...data, id }`. */
  function WithId(data: Rec, id: string): Rec {
    data["id" := Str(id)]
  }

  /** An update replaces the first record with the id by that record
      overridden by the given fields; an unknown id is rejected. */
  function Updated(items: seq<Rec>, id: string, data: Rec): Option<seq<Rec>> {
    var i := FindIndex(items, id);
    if i.None? then None else Some(items[i.value := items[i.value] + data])
  }

  /** A record with a soft-delete flag gets it set; one without is taken
      out of the list; an unknown id changes nothing. */
  function Deleted(items: seq<Rec>, id: string): seq<Rec> {
    var i := FindIndex(items, id);
    if i.None? then items
    else if "isDeleted" in items[i.value] then items[i.value := items[i.value]["isDeleted" := Bool(true)]]
    else items[..i.value] + items[i.value + 1..]
  }

  /** Recovery clears the flag of a found record that has one and changes
      nothing otherwise. */
  function Recovered(items: seq<Rec>, id: string): seq<Rec> {
    var i := FindIndex(items, id);
    if i.Some? && "isDeleted" in items[i.value] then items[i.value := items[i.value]["isDeleted" := Bool(false)]]
    else items
  }

  /** A created record is the one first found under its fresh id. */
  lemma {:induction false} CreatedIsFound(items: seq<Rec>, data: Rec, id: string)
    requires forall k :: 0 <= k < |items| ==> !HasId(items[k], id)
    ensures FindIndex(items + [WithId(data, id)], id) == Some(|items|)
    ensures (items + [WithId(data, id)])[..|items|] == items
  {
    var s := items + [WithId(data, id)];
    assert forall k :: 0 <= k < |items| ==> s[k] == items[k];
    assert HasId(s[|items|], id);
    var r := FindIndex(s, id);
    assert r.Some?;
  }

  /** An update is rejected exactly when no record has the id; otherwise
      only the first such record changes: it takes every given field and
      keeps every other field it had. */
  lemma {:induction false} UpdatedSpec(items: seq<Rec>, id: string, data: Rec)
    ensures Updated(items, id, data).None? <==> forall k :: 0 <= k < |items| ==> !HasId(items[k], id)
    ensures Updated(items, id, data).Some? ==>
      var i := FindIndex(items, id).value;
      var r := Updated(items, id, data).value;
      |r| == |items| &&
      (forall k :: 0 <= k < |items| && k != i ==> r[k] == items[k]) &&
      (forall f :: f in data ==> f in r[i] && r[i][f] == data[f]) &&
      (forall f :: f in items[i] && f !in data ==> f in r[i] && r[i][f] == items[i][f]) &&
      (forall f :: f in r[i] ==> f in data || f in items[i])
  {
  }

  /** Deleting an unknown id changes nothing; a flagged record keeps its
      place with the flag set. */
  lemma {:induction false} SoftDeletedSpec(items: seq<Rec>, id: string)
    ensures FindIndex(items, id).None? ==> Deleted(items, id) == items
    ensures FindIndex(items, id).Some? && "isDeleted" in items[FindIndex(items, id).value] ==>
      var i := FindIndex(items, id).value;
      var r := Deleted(items, id);
      |r| == |items| && r[i] == items[i]["isDeleted" := Bool(true)] &&
      forall k :: 0 <= k < |items| && k != i ==> r[k] == items[k]
  {
  }

  /** An unflagged record is removed, the others keeping their order. */
  lemma {:induction false} HardDeletedSpec(items: seq<Rec>, id: string)
    ensures FindIndex(items, id).Some? && "isDeleted" !in items[FindIndex(items, id).value] ==>
      var i := FindIndex(items, id).value;
      var r := Deleted(items, id);
      |r| == |items| - 1 &&
      (forall k :: 0 <= k < i ==> r[k] == items[k]) &&
      (forall k :: i < k < |items| ==> r[k - 1] == items[k])
  {
    var f := FindIndex(items, id);
    if f.Some? && "isDeleted" !in items[f.value] {
      var i := f.value;
      var r := items[..i] + items[i + 1..];
      assert Deleted(items, id) == r;
      forall k | 0 <= k < i ensures r[k] == items[k] { }
      forall k | i < k < |items| ensures r[k - 1] == items[k] { }
    }
  }

  /** Recovering a soft-deleted record clears its flag and changes
      nothing else. */
  lemma {:induction false} RecoverAfterDelete(items: seq<Rec>, id: string)
    requires FindIndex(items, id).Some? && "isDeleted" in items[FindIndex(items, id).value]
    ensures var i := FindIndex(items, id).value;
      Recovered(Deleted(items, id), id) == items[i := items[i]["isDeleted" := Bool(false)]]
  {
    var i := FindIndex(items, id).value;
    var d := items[i := items[i]["isDeleted" := Bool(true)]];
    assert Deleted(items, id) == d;
    assert forall k :: 0 <= k < i ==> d[k] == items[k];
    assert HasId(d[i], id);
    var j := FindIndex(d, id);
    assert j.Some?;
    assert j.value == i;
    assert d[i]["isDeleted" := Bool(false)] == items[i]["isDeleted" := Bool(false)];
  }

  // ---------------------------------------------------------------------
  // Users, passwords and login
  // ---------------------------------------------------------------------

  /** The mock hash: empty for an empty password, otherwise "hashed_"
      followed by the password reversed. */
  function FakeHash(password: string): string {
    if password == "" then "" else "hashed_" + Reverse(password)
  }

  /** Different passwords never share a hash. */
  lemma {:induction false} FakeHashInjective(a: string, b: string)
    ensures FakeHash(a) == FakeHash(b) ==> a == b
  {
    if FakeHash(a) == FakeHash(b) && a != "" && b != "" {
      var ra := Reverse(a);
      var rb := Reverse(b);
      assert ra == FakeHash(a)[7..] == FakeHash(b)[7..] == rb;
      assert |a| == |b|;
      forall i | 0 <= i < |a| ensures a[i] == b[i] {
        assert ra[|a| - 1 - i] == a[i];
        assert rb[|b| - 1 - i] == b[i];
      }
    }
  }

  predicate NamedUser(u: Rec, username: string) {
    "username" in u && u["username"] == Str(username)
  }

  /** A user record matches a login when both the username and the hash
      of the typed password agree with what is stored. */
  function Credentials(username: string, raw: string): Rec -> bool {
    (u: Rec) => NamedUser(u, username) && "password" in u && u["password"] == Str(FakeHash(raw))
  }

  function UsernameTaken(users: seq<Rec>, username: string): bool {
    exists k :: 0 <= k < |users| && NamedUser(users[k], username)
  }

  /** A newly created user: role USER, the hash of the password or of ""
      when none is given, and an empty permission map when none is given. */
  function NewUser(id: string, username: string, password: Option<string>, permissions: Option<Value>, createdAt: string): Rec {
    map[
      "id" := Str(id),
      "username" := Str(username),
      "password" := Str(FakeHash(if password.Some? then password.value else "")),
      "role" := Str("USER"),
      "permissions" := (if permissions.Some? then permissions.value else Object(map[])),
      "createdAt" := Str(createdAt)]
  }

  /** The user the store hands out: every field but the password. */
  function WithoutPassword(u: Rec): Rec {
    u - {"password"}
  }

  /** With a username nobody had, a new user logs in with exactly the
      password it was created with (none meaning the empty one), and the
      login hands back that user without its password. */
  lemma {:induction false} LoginAfterCreate(users: seq<Rec>, id: string, username: string, password: Option<string>,
                         permissions: Option<Value>, createdAt: string, raw: string)
    requires !UsernameTaken(users, username)
    ensures var u := NewUser(id, username, password, permissions, createdAt);
      var found := Find(users + [u], Credentials(username, raw));
      (found.Some? <==> raw == (if password.Some? then password.value else "")) &&
      (found.Some? ==> WithoutPassword(found.value) == WithoutPassword(u))
  {
    var u := NewUser(id, username, password, permissions, createdAt);
    var s := users + [u];
    var p := Credentials(username, raw);
    var pw := if password.Some? then password.value else "";
    FakeHashInjective(raw, pw);
    forall k | 0 <= k < |users| ensures !p(s[k]) {
      assert s[k] == users[k];
    }
    var found := Find(s, p);
    if found.Some? {
      var k :| 0 <= k < |s| && s[k] == found.value;
      assert k == |users|;
    }
    if raw == pw {
      assert p(s[|users|]);
    }
  }

  // ---------------------------------------------------------------------
  // Service orders
  // ---------------------------------------------------------------------

  /** "IPS", the counter padded to four digits, "TT" and the year. */
  function ServiceOrder(n: int, year: int): string {
    "IPS" + PadStart(IntToString(n), 4, '0') + "TT" + IntToString(year)
  }

  /** For counters below 10000 the order carries the counter in its four
      digits after "IPS", so distinct counters give distinct orders. */
  lemma {:induction false} ServiceOrderSpec(n: nat, year: int)
    requires n < 10000
    ensures ServiceOrder(n, year)[..3] == "IPS"
    ensures ParseInt(ServiceOrder(n, year)[3..7]) == Some(n)
    ensures ServiceOrder(n, year)[7..] == "TT" + IntToString(year)
  {
    ServiceOrderParts(n, year);
    ParseIntOfPadded(n, 4);
  }

  lemma {:induction false} ServiceOrderParts(n: nat, year: int)
    requires n < 10000
    ensures |ServiceOrder(n, year)| >= 7
    ensures ServiceOrder(n, year)[..3] == "IPS"
    ensures ServiceOrder(n, year)[3..7] == PadStart(NatToString(n), 4, '0')
    ensures ServiceOrder(n, year)[7..] == "TT" + IntToString(year)
  {
    NatToStringBelow(n, 4);
    var pn := PadStart(NatToString(n), 4, '0');
    assert |pn| == 4;
    assert IntToString(n) == NatToString(n);
    ConcatParts("IPS", pn, "TT" + IntToString(year));
    assert ServiceOrder(n, year) == "IPS" + pn + ("TT" + IntToString(year));
  }

  /** Distinct counters below 10000 give distinct service orders. */
  lemma {:induction false} ServiceOrderInjective(n: nat, m: nat, year: int)
    requires n < 10000 && m < 10000 && ServiceOrder(n, year) == ServiceOrder(m, year)
    ensures n == m
  {
    ServiceOrderSpec(n, year);
    ServiceOrderSpec(m, year);
  }

  lemma {:induction false} ConcatParts<T>(a: seq<T>, b: seq<T>, c: seq<T>)
    ensures (a + b + c)[..|a|] == a
    ensures (a + b + c)[|a|..|a| + |b|] == b
    ensures (a + b + c)[|a| + |b|..] == c
  {
  }

  lemma {:induction false} NatToStringBelow(n: nat, width: nat)
    requires 0 < width && n < Power10(width)
    ensures |NatToString(n)| <= width
    decreases n
  {
    if n >= 10 {
      assert width > 1;
      assert n / 10 < Power10(width - 1);
      NatToStringBelow(n / 10, width - 1);
      assert |NatToString(n)| == |NatToString(n / 10)| + 1;
    }
  }

  function Power10(e: nat): nat {
    if e == 0 then 1 else 10 * Power10(e - 1)
  }

  // ---------------------------------------------------------------------
  // DMTI correlatives
  // ---------------------------------------------------------------------

  /** A registration date "YYYY-MM-DD" (month and day ranges are not
      checked). */
  predicate IsIsoDate(d: string) {
    |d| == 10 && d[4] == '-' && d[7] == '-' &&
    forall i :: 0 <= i < 10 && i != 4 && i != 7 ==> IsDigit(d[i])
  }

  /** The year of a registration date, nothing (NaN) for an unreadable one. */
  function RegistrationYear(date: string): Option<int> {
    if IsIsoDate(date) then
      assert forall i :: 0 <= i < 4 ==> DigitValue(date[..4][i], 10).Some?;
      Some(DigitsValue(date[..4], 10))
    else None
  }

  function YearText(year: Option<int>): string {
    if year.Some? then IntToString(year.value) else "NaN"
  }

  /** What the store needs of a DMTI record: a string id and a string
      registration date. */
  predicate DmtiShaped(d: Rec) {
    "id" in d && d["id"].Str? && "registrationDate" in d && d["registrationDate"].Str?
  }

  /** The sequence a DMTI uses in the given year: the integer its last
      five characters parse as, provided it is of that year and its id is
      shorter than 36 characters. */
  function UsedSequence(d: Rec, year: Option<int>): Option<int> {
    if DmtiShaped(d) && year.Some? && RegistrationYear(d["registrationDate"].s) == year && |d["id"].s| < 36
    then ParseInt(LastN(d["id"].s, 5))
    else None
  }

  /** The sequences already used in the year, in list order. */
  function Sequences(dmtis: seq<Rec>, year: Option<int>): seq<int> {
    if |dmtis| == 0 then []
    else
      var u := UsedSequence(dmtis[|dmtis| - 1], year);
      Sequences(dmtis[..|dmtis| - 1], year) + (if u.Some? then [u.value] else [])
  }

  function Max(s: seq<int>): int
    requires |s| > 0
  {
    if |s| == 1 then s[0]
    else
      var m := Max(s[..|s| - 1]);
      if s[|s| - 1] > m then s[|s| - 1] else m
  }

  lemma {:induction false} MaxSpec(s: seq<int>)
    requires |s| > 0
    ensures Max(s) in s
    ensures forall x :: x in s ==> x <= Max(s)
  {
    if |s| > 1 {
      var init := s[..|s| - 1];
      MaxSpec(init);
      assert s == init + [s[|s| - 1]];
    }
  }

  /** One more than the largest sequence of the year; with none yet, 428
      in 2025 and 1 in every other year. */
  function NextSequence(dmtis: seq<Rec>, year: Option<int>): int {
    var used := Sequences(dmtis, year);
    if year == Some(2025) then (if |used| > 0 then Max(used) + 1 else 428)
    else (if |used| > 0 then Max(used) + 1 else 1)
  }

  /** The year, the customs office with everything but ASCII letters and
      digits removed, the user code, and the sequence padded to five. */
  function Correlative(year: Option<int>, startingCustoms: string, n: int): string {
    YearText(year) + StripNonAlnum(startingCustoms) + "SV02347" + PadStart(IntToString(n), 5, '0')
  }

  /** Every used sequence comes from a DMTI of the year. */
  lemma {:induction false} SequencesSound(dmtis: seq<Rec>, year: Option<int>)
    ensures forall x :: x in Sequences(dmtis, year) ==> exists d :: d in dmtis && UsedSequence(d, year) == Some(x)
  {
    if |dmtis| > 0 {
      var init := dmtis[..|dmtis| - 1];
      SequencesSound(init, year);
      forall x | x in Sequences(dmtis, year) ensures exists d :: d in dmtis && UsedSequence(d, year) == Some(x) {
        if x in Sequences(init, year) {
          var d :| d in init && UsedSequence(d, year) == Some(x);
          assert d in dmtis;
        } else {
          assert UsedSequence(dmtis[|dmtis| - 1], year) == Some(x);
        }
      }
    }
  }

  /** Every DMTI of the year contributes its sequence. */
  lemma {:induction false} SequencesComplete(dmtis: seq<Rec>, year: Option<int>)
    ensures forall d :: d in dmtis && UsedSequence(d, year).Some? ==> UsedSequence(d, year).value in Sequences(dmtis, year)
  {
    if |dmtis| > 0 {
      var init := dmtis[..|dmtis| - 1];
      assert dmtis == init + [dmtis[|dmtis| - 1]];
      SequencesComplete(init, year);
    }
  }

  /** The next sequence exceeds every sequence used in the year and is
      one more than one of them, or, when none is used, is 428 in 2025
      and 1 otherwise. */
  lemma {:induction false} NextSequenceSpec(dmtis: seq<Rec>, year: Option<int>)
    ensures forall d :: d in dmtis && UsedSequence(d, year).Some? ==> NextSequence(dmtis, year) > UsedSequence(d, year).value
    ensures (forall d :: d in dmtis ==> UsedSequence(d, year).None?) ==>
      NextSequence(dmtis, year) == if year == Some(2025) then 428 else 1
    ensures (exists d :: d in dmtis && UsedSequence(d, year).Some?) ==>
      exists d :: d in dmtis && UsedSequence(d, year).Some? && NextSequence(dmtis, year) == UsedSequence(d, year).value + 1
  {
    var used := Sequences(dmtis, year);
    SequencesSound(dmtis, year);
    SequencesComplete(dmtis, year);
    if |used| > 0 {
      MaxSpec(used);
    }
  }

  function NewDmti(dmtis: seq<Rec>, data: Rec, createdAt: string): Rec
    requires "registrationDate" in data && data["registrationDate"].Str?
    requires "startingCustoms" in data && data["startingCustoms"].Str?
  {
    var year := RegistrationYear(data["registrationDate"].s);
    var n := NextSequence(dmtis, year);
    data["id" := Str(Correlative(year, data["startingCustoms"].s, n))]["createdAt" := Str(createdAt)]
  }

  /** When a new DMTI's correlative stays under 36 characters and its
      sequence fits five digits, it reads back as that sequence, so the
      next DMTI of the same year gets the sequence after it. */
  lemma {:induction false} NextDmtiFollows(dmtis: seq<Rec>, data: Rec, createdAt: string)
    requires "registrationDate" in data && data["registrationDate"].Str?
    requires "startingCustoms" in data && data["startingCustoms"].Str?
    requires var year := RegistrationYear(data["registrationDate"].s);
      year.Some? && 0 <= NextSequence(dmtis, year) < 100000 &&
      |Correlative(year, data["startingCustoms"].s, NextSequence(dmtis, year))| < 36
    ensures var year := RegistrationYear(data["registrationDate"].s);
      NextSequence(dmtis + [NewDmti(dmtis, data, createdAt)], year) == NextSequence(dmtis, year) + 1
  {
    var year := RegistrationYear(data["registrationDate"].s);
    var n := NextSequence(dmtis, year);
    var d := NewDmti(dmtis, data, createdAt);
    CorrelativeReadsBack(year, data["startingCustoms"].s, n);
    assert d["id"] == Str(Correlative(year, data["startingCustoms"].s, n));
    assert d["registrationDate"] == data["registrationDate"];
    assert UsedSequence(d, year) == Some(n);
    SequencesAppend(dmtis, d, year);
    var used := Sequences(dmtis, year);
    if |used| > 0 {
      MaxSpec(used);
      MaxAppend(used, n);
    } else {
      assert [n][..0] == [];
    }
  }

  /** A correlative's last five characters read back as its sequence. */
  lemma {:induction false} CorrelativeReadsBack(year: Option<int>, startingCustoms: string, n: int)
    requires 0 <= n < 100000
    ensures ParseInt(LastN(Correlative(year, startingCustoms, n), 5)) == Some(n)
  {
    CorrelativeTail(year, startingCustoms, n);
    ParseIntOfPadded(n, 5);
  }

  lemma {:induction false} CorrelativeTail(year: Option<int>, startingCustoms: string, n: int)
    requires 0 <= n < 100000
    ensures LastN(Correlative(year, startingCustoms, n), 5) == PadStart(NatToString(n), 5, '0')
  {
    var padded := PadStart(NatToString(n), 5, '0');
    NatToStringBelow(n, 5);
    assert |padded| == 5;
    assert IntToString(n) == NatToString(n);
    var head := YearText(year) + StripNonAlnum(startingCustoms) + "SV02347";
    assert Correlative(year, startingCustoms, n) == head + padded;
    assert (head + padded)[|head + padded| - 5..] == padded;
  }

  lemma {:induction false} SequencesAppend(dmtis: seq<Rec>, d: Rec, year: Option<int>)
    ensures Sequences(dmtis + [d], year) ==
            Sequences(dmtis, year) + (if UsedSequence(d, year).Some? then [UsedSequence(d, year).value] else [])
  {
    assert (dmtis + [d])[..|dmtis|] == dmtis;
  }

  lemma {:induction false} MaxAppend(s: seq<int>, x: int)
    requires |s| > 0 && forall y :: y in s ==> y < x
    ensures Max(s + [x]) == x
  {
    assert (s + [x])[..|s|] == s;
    MaxSpec(s);
  }

  lemma {:induction false} AppendShaped(dmtis: seq<Rec>, d: Rec)
    requires forall k :: 0 <= k < |dmtis| ==> DmtiShaped(dmtis[k])
    requires DmtiShaped(d)
    ensures forall k :: 0 <= k < |dmtis + [d]| ==> DmtiShaped((dmtis + [d])[k])
  {
  }

  // ---------------------------------------------------------------------
  // The service
  // ---------------------------------------------------------------------

  /** The admin user the store starts with. */
  function AdminUser(id: string, username: string, password: string, createdAt: string): Rec {
    map[
      "id" := Str(id),
      "username" := Str(username),
      "password" := Str(FakeHash(password)),
      "role" := Str("ADMIN"),
      "createdAt" := Str(createdAt),
      "permissions" := Object(map[])]
  }

  /** The account the store is seeded with. */
  const AdminUsername: string := "administrador"
  const AdminPassword: string := "InporseAdmin2024!"

  /** The fields seeding adds to every client and driver. */
  const NotDeleted: Rec := map["isDeleted" := Bool(false)]

  /** The fields seeding adds to a vehicle of the given type. */
  function VehicleFields(kind: string): Rec {
    map["type" := Str(kind), "isDeleted" := Bool(false)]
  }

  /** `{ ...item, id, ...fields }`: the seed constant's fields, then the
      fresh id, then the fields seeding fixes. */
  function SeedRecord(item: Rec, id: string, fields: Rec): Rec {
    item + map["id" := Str(id)] + fields
  }

  /** A seed list, the k-th record under the k-th fresh id; every record
      carries its id and the fixed fields and keeps the constant's other
      fields. */
  function Seeded(items: seq<Rec>, ids: seq<string>, fields: Rec): (r: seq<Rec>)
    requires |ids| == |items| && "id" !in fields
    ensures |r| == |items|
    ensures forall k :: 0 <= k < |r| ==> HasId(r[k], ids[k])
    ensures forall k, f :: 0 <= k < |r| && f in fields ==> f in r[k] && r[k][f] == fields[f]
    ensures forall k, f :: 0 <= k < |r| && f in items[k] && f != "id" && f !in fields ==>
      f in r[k] && r[k][f] == items[k][f]
  {
    if |items| == 0 then []
    else
      var n := |items| - 1;
      var r := Seeded(items[..n], ids[..n], fields) + [SeedRecord(items[n], ids[n], fields)];
      assert forall k :: 0 <= k < n ==> items[..n][k] == items[k] && ids[..n][k] == ids[k];
      r
  }

  /** A seeded record carries the soft-delete flag, so deleting any seeded
      record only sets it: the list keeps its length and the record found
      now reads as deleted. */
  lemma {:induction false} SeededSoftDelete(items: seq<Rec>, ids: seq<string>, fields: Rec, id: string)
    requires |ids| == |items| && "id" !in fields && "isDeleted" in fields
    ensures var s := Seeded(items, ids, fields);
      var r := Deleted(s, id);
      |r| == |s| &&
      (FindIndex(s, id).Some? ==> r[FindIndex(s, id).value]["isDeleted"] == Bool(true))
  {
    var s := Seeded(items, ids, fields);
    var i := FindIndex(s, id);
    if i.Some? {
      assert "isDeleted" in s[i.value];
      SoftDeletedSpec(s, id);
    }
  }

  /** The seeded admin logs in with exactly the seeded username and
      password, and the login hands back an ADMIN with no permission
      entries. */
  lemma {:induction false} AdminLogsIn(id: string, createdAt: string, username: string, raw: string)
    ensures var found := Find([AdminUser(id, AdminUsername, AdminPassword, createdAt)], Credentials(username, raw));
      (found.Some? <==> username == AdminUsername && raw == AdminPassword) &&
      (found.Some? ==> WithoutPassword(found.value)["role"] == Str("ADMIN") &&
                       WithoutPassword(found.value)["permissions"] == Object(map[]))
  {
    var u := AdminUser(id, AdminUsername, AdminPassword, createdAt);
    FakeHashInjective(raw, AdminPassword);
    if username == AdminUsername && raw == AdminPassword {
      assert Credentials(username, raw)(u);
    }
  }

  class ApiService {
    var users: seq<Rec>
    var drivers: seq<Rec>
    var trucks: seq<Rec>
    var trailers: seq<Rec>
    var trips: seq<Rec>
    var dmtis: seq<Rec>
    var clients: seq<Rec>
    var lastServiceNumber: int

    /** Every DMTI record has the string id and date the correlative reads. */
    predicate Valid()
      reads this
    {
      forall k :: 0 <= k < |dmtis| ==> DmtiShaped(dmtis[k])
    }

    /** The list a resource name selects. */
    function ListOf(r: Resource): seq<Rec>
      reads this
    {
      match r
      case Trips => trips
      case Drivers => drivers
      case Trucks => trucks
      case Trailers => trailers
      case Dmtis => dmtis
      case Clients => clients
      case Users => users
    }

    /** The store as seeded: the admin account, the seed clients and
        drivers flagged not deleted, the seed trucks and trailers typed
        and flagged not deleted, each under its fresh id, the seed trips,
        no DMTIs, and the service-order counter at the number of trips. */
    constructor (adminId: string, createdAt: string,
                 clients0: seq<Rec>, clientIds: seq<string>, drivers0: seq<Rec>, driverIds: seq<string>,
                 trucks0: seq<Rec>, truckIds: seq<string>, trailers0: seq<Rec>, trailerIds: seq<string>,
                 trips0: seq<Rec>)
      requires |clientIds| == |clients0| && |driverIds| == |drivers0|
      requires |truckIds| == |trucks0| && |trailerIds| == |trailers0|
      ensures users == [AdminUser(adminId, AdminUsername, AdminPassword, createdAt)]
      ensures clients == Seeded(clients0, clientIds, NotDeleted)
      ensures drivers == Seeded(drivers0, driverIds, NotDeleted)
      ensures trucks == Seeded(trucks0, truckIds, VehicleFields("truck"))
      ensures trailers == Seeded(trailers0, trailerIds, VehicleFields("trailer"))
      ensures trips == trips0 && dmtis == [] && lastServiceNumber == |trips0|
      ensures Valid()
    {
      users := [AdminUser(adminId, AdminUsername, AdminPassword, createdAt)];
      clients := Seeded(clients0, clientIds, NotDeleted);
      drivers := Seeded(drivers0, driverIds, NotDeleted);
      trucks := Seeded(trucks0, truckIds, VehicleFields("truck"));
      trailers := Seeded(trailers0, trailerIds, VehicleFields("trailer"));
      trips := trips0;
      dmtis := [];
      lastServiceNumber := |trips0|;
    }

    method SetList(r: Resource, items: seq<Rec>)
      modifies this
      ensures ListOf(r) == items
      ensures forall q :: q != r ==> ListOf(q) == old(ListOf(q))
      ensures lastServiceNumber == old(lastServiceNumber)
    {
      match r
      case Trips => trips := items;
      case Drivers => drivers := items;
      case Trucks => trucks := items;
      case Trailers => trailers := items;
      case Dmtis => dmtis := items;
      case Clients => clients := items;
      case Users => users := items;
    }

    /** Appends the data under a fresh id and hands back the new record. */
    method Create(r: Resource, data: Rec, freshId: string) returns (item: Rec)
      requires Valid()
      requires forall k :: 0 <= k < |ListOf(r)| ==> !HasId(ListOf(r)[k], freshId)
      requires r == Dmtis ==> "registrationDate" in data && data["registrationDate"].Str?
      modifies this
      ensures item == WithId(data, freshId)
      ensures ListOf(r) == old(ListOf(r)) + [item]
      ensures forall q :: q != r ==> ListOf(q) == old(ListOf(q))
      ensures lastServiceNumber == old(lastServiceNumber)
      ensures Valid()
    {
      item := data["id" := Str(freshId)];
      var items := ListOf(r);
      SetList(r, items + [item]);
      assert r != Dmtis ==> dmtis == old(dmtis) by {
        if r != Dmtis { assert ListOf(Dmtis) == old(ListOf(Dmtis)); }
      }
    }

    /** Overrides the fields of the record with the id, or rejects an
        unknown id. */
    method Update(r: Resource, id: string, data: Rec) returns (result: Outcome<Rec>)
      requires Valid()
      requires r == Dmtis ==> ("id" in data ==> data["id"].Str?) &&
                              ("registrationDate" in data ==> data["registrationDate"].Str?)
      modifies this
      ensures Updated(old(ListOf(r)), id, data).None? ==> result == Rejected("Item not found") && ListOf(r) == old(ListOf(r))
      ensures Updated(old(ListOf(r)), id, data).Some? ==>
        ListOf(r) == Updated(old(ListOf(r)), id, data).value &&
        result == Done(ListOf(r)[FindIndex(old(ListOf(r)), id).value])
      ensures forall q :: q != r ==> ListOf(q) == old(ListOf(q))
      ensures lastServiceNumber == old(lastServiceNumber)
      ensures Valid()
    {
      var items := ListOf(r);
      var i := FindIndex(items, id);
      if i.None? {
        result := Rejected("Item not found");
        return;
      }
      var updatedItem := items[i.value] + data;
      SetList(r, items[i.value := updatedItem]);
      result := Done(updatedItem);
      assert r != Dmtis ==> dmtis == old(dmtis) by {
        if r != Dmtis { assert ListOf(Dmtis) == old(ListOf(Dmtis)); }
      }
    }

    /** Soft-deletes a flagged record, removes an unflagged one, and
        ignores an unknown id. */
    method Delete(r: Resource, id: string)
      requires Valid()
      modifies this
      ensures ListOf(r) == Deleted(old(ListOf(r)), id)
      ensures forall q :: q != r ==> ListOf(q) == old(ListOf(q))
      ensures lastServiceNumber == old(lastServiceNumber)
      ensures Valid()
    {
      var items := ListOf(r);
      var i := FindIndex(items, id);
      if i.None? {
        return;
      }
      var item := items[i.value];
      if "isDeleted" in item {
        SetList(r, items[i.value := item["isDeleted" := Bool(true)]]);
      } else {
        SetList(r, items[..i.value] + items[i.value + 1..]);
      }
      assert r != Dmtis ==> dmtis == old(dmtis) by {
        if r != Dmtis { assert ListOf(Dmtis) == old(ListOf(Dmtis)); }
      }
      assert r == Dmtis ==> forall k :: 0 <= k < |dmtis| ==> DmtiShaped(dmtis[k]) by {
        if r == Dmtis && "isDeleted" !in item {
          forall k | 0 <= k < |dmtis| ensures DmtiShaped(dmtis[k]) {
            if k < i.value { assert dmtis[k] == items[k]; } else { assert dmtis[k] == items[k + 1]; }
          }
        }
      }
    }

    /** Clears the flag of the record with the id when it has one. */
    method Recover(r: Resource, id: string)
      requires Valid()
      modifies this
      ensures ListOf(r) == Recovered(old(ListOf(r)), id)
      ensures forall q :: q != r ==> ListOf(q) == old(ListOf(q))
      ensures lastServiceNumber == old(lastServiceNumber)
      ensures Valid()
    {
      var items := ListOf(r);
      var i := FindIndex(items, id);
      if i.Some? && "isDeleted" in items[i.value] {
        SetList(r, items[i.value := items[i.value]["isDeleted" := Bool(false)]]);
      }
      assert r != Dmtis ==> dmtis == old(dmtis) by {
        if r != Dmtis { assert ListOf(Dmtis) == old(ListOf(Dmtis)); }
      }
    }

    /** The first user whose username and password hash match, without
        its password; nothing when none matches. */
    method Login(username: string, raw: string) returns (user: Option<Rec>)
      ensures user.None? <==> !exists k :: 0 <= k < |users| && Credentials(username, raw)(users[k])
      ensures user.Some? ==> exists k :: 0 <= k < |users| && Credentials(username, raw)(users[k]) &&
                                         user.value == WithoutPassword(users[k]) &&
                                         forall j :: 0 <= j < k ==> !Credentials(username, raw)(users[j])
    {
      var found := Find(users, Credentials(username, raw));
      if found.None? {
        user := None;
      } else {
        user := Some(found.value - {"password"});
      }
    }

    /** Rejects a taken username and changes nothing; otherwise appends a
        USER with the hashed password and hands it back without it. */
    method CreateUser(username: string, password: Option<string>, permissions: Option<Value>,
                      freshId: string, createdAt: string) returns (result: Outcome<Rec>)
      modifies this
      ensures UsernameTaken(old(users), username) ==>
        result == Rejected("El nombre de usuario ya existe.") && users == old(users)
      ensures !UsernameTaken(old(users), username) ==>
        users == old(users) + [NewUser(freshId, username, password, permissions, createdAt)] &&
        result == Done(WithoutPassword(NewUser(freshId, username, password, permissions, createdAt)))
      ensures drivers == old(drivers) && trucks == old(trucks) && trailers == old(trailers)
      ensures trips == old(trips) && dmtis == old(dmtis) && clients == old(clients)
      ensures lastServiceNumber == old(lastServiceNumber)
    {
      if exists k :: 0 <= k < |users| && NamedUser(users[k], username) {
        result := Rejected("El nombre de usuario ya existe.");
        return;
      }
      var newUser := map[
        "id" := Str(freshId),
        "username" := Str(username),
        "password" := Str(FakeHash(if password.Some? then password.value else "")),
        "role" := Str("USER"),
        "permissions" := (if permissions.Some? then permissions.value else Object(map[])),
        "createdAt" := Str(createdAt)];
      users := users + [newUser];
      result := Done(newUser - {"password"});
    }

    /** Replaces a user's permissions when given, or rejects an unknown id. */
    method UpdateUser(userId: string, permissions: Option<Value>) returns (result: Outcome<Rec>)
      modifies this
      ensures var data := if permissions.Some? then map["permissions" := permissions.value] else map[];
        (Updated(old(users), userId, data).None? ==> result == Rejected("User not found") && users == old(users)) &&
        (Updated(old(users), userId, data).Some? ==>
           users == Updated(old(users), userId, data).value &&
           result == Done(WithoutPassword(users[FindIndex(old(users), userId).value])))
      ensures drivers == old(drivers) && trucks == old(trucks) && trailers == old(trailers)
      ensures trips == old(trips) && dmtis == old(dmtis) && clients == old(clients)
      ensures lastServiceNumber == old(lastServiceNumber)
    {
      var data: Rec := if permissions.Some? then map["permissions" := permissions.value] else map[];
      var i := FindIndex(users, userId);
      if i.None? {
        result := Rejected("User not found");
        return;
      }
      var updatedUser := users[i.value] + data;
      users := users[i.value := updatedUser];
      result := Done(updatedUser - {"password"});
    }

    /** Stores the hash of a new password, or rejects an unknown id. */
    method UpdateUserPassword(userId: string, raw: string) returns (result: Outcome<()>)
      modifies this
      ensures FindIndex(old(users), userId).None? ==> result == Rejected("User not found") && users == old(users)
      ensures FindIndex(old(users), userId).Some? ==>
        var i := FindIndex(old(users), userId).value;
        result == Done(()) && users == old(users)[i := old(users)[i]["password" := Str(FakeHash(raw))]]
      ensures drivers == old(drivers) && trucks == old(trucks) && trailers == old(trailers)
      ensures trips == old(trips) && dmtis == old(dmtis) && clients == old(clients)
      ensures lastServiceNumber == old(lastServiceNumber)
    {
      var i := FindIndex(users, userId);
      if i.None? {
        result := Rejected("User not found");
        return;
      }
      users := users[i.value := users[i.value]["password" := Str(FakeHash(raw))]];
      result := Done(());
    }

    /** Appends a DMTI under the next correlative of its registration year. */
    method CreateDmti(data: Rec, createdAt: string) returns (dmti: Rec)
      requires Valid()
      requires "registrationDate" in data && data["registrationDate"].Str?
      requires "startingCustoms" in data && data["startingCustoms"].Str?
      modifies this
      ensures dmti == NewDmti(old(dmtis), data, createdAt)
      ensures dmtis == old(dmtis) + [dmti]
      ensures users == old(users) && drivers == old(drivers) && trucks == old(trucks)
      ensures trailers == old(trailers) && trips == old(trips) && clients == old(clients)
      ensures lastServiceNumber == old(lastServiceNumber)
      ensures Valid()
    {
      var year := RegistrationYear(data["registrationDate"].s);
      var used := Sequences(dmtis, year);
      var nextSequence: int;
      if year == Some(2025) {
        if |used| > 0 { nextSequence := Max(used) + 1; } else { nextSequence := 428; }
      } else {
        if |used| > 0 { nextSequence := Max(used) + 1; } else { nextSequence := 1; }
      }
      var sequenceString := PadStart(IntToString(nextSequence), 5, '0');
      var customsCode := StripNonAlnum(data["startingCustoms"].s);
      var correlative := YearText(year) + customsCode + "SV02347" + sequenceString;
      assert nextSequence == NextSequence(dmtis, year);
      assert correlative == Correlative(year, data["startingCustoms"].s, nextSequence);
      dmti := data["id" := Str(correlative)]["createdAt" := Str(createdAt)];
      assert DmtiShaped(dmti);
      AppendShaped(dmtis, dmti);
      dmtis := dmtis + [dmti];
    }

    /** Advances the counter by one and formats the new service order. */
    method NextServiceOrder(year: int) returns (order: string)
      modifies this
      ensures lastServiceNumber == old(lastServiceNumber) + 1
      ensures order == ServiceOrder(lastServiceNumber, year)
      ensures users == old(users) && drivers == old(drivers) && trucks == old(trucks)
      ensures trailers == old(trailers) && trips == old(trips) && dmtis == old(dmtis) && clients == old(clients)
    {
      lastServiceNumber := lastServiceNumber + 1;
      order := "IPS" + PadStart(IntToString(lastServiceNumber), 4, '0') + "TT" + IntToString(year);
    }
  }
}
