/** The token that signs requests to T-Bank and its notifications. */
module BankToken {
  import opened Tables
  import opened Sorting

  // A field of a payload; `text` is what join makes of a number.
  datatype Value = Text(text: string) | Number(text: string) | Flag(flag: bool) | Nested

  // An object in the order of its keys, each at most once.
  datatype Field = Field(key: string, value: Value)

  predicate DistinctFields(payload: seq<Field>) {
    forall i, j | 0 <= i < j < |payload| :: payload[i].key != payload[j].key
  }

  const TOKEN := "Token"
  const PASSWORD := "Password"

  function Shown(value: Value): string
    requires !value.Nested?
  {
    match value
    case Text(text) => text
    case Number(text) => text
    case Flag(flag) => if flag then "true" else "false"
  }

  predicate Signed(field: Field) {
    field.key != TOKEN && !field.value.Nested?
  }

  // ---------- Array.prototype.sort on texts ----------

  // The UTF-16 code units of a character: one, or a pair of surrogates.
  function UnitsOf(c: char): (units: seq<nat>)
    ensures units != []
  {
    var code := c as int;
    if code < 0x10000 then [code] else [0xD800 + (code - 0x10000) / 0x400, 0xDC00 + (code - 0x10000) % 0x400]
  }

  function Units(text: string): seq<nat> {
    if text == "" then [] else UnitsOf(text[0]) + Units(text[1..])
  }

  predicate UnitsAtMost(a: seq<nat>, b: seq<nat>) {
    a == [] || (b != [] && (a[0] < b[0] || (a[0] == b[0] && UnitsAtMost(a[1..], b[1..]))))
  }

  predicate AtMost(a: string, b: string) {
    UnitsAtMost(Units(a), Units(b))
  }

  lemma {:induction false} AtMostTotal(a: seq<nat>, b: seq<nat>)
    ensures UnitsAtMost(a, b) || UnitsAtMost(b, a)
    ensures UnitsAtMost(a, b) && UnitsAtMost(b, a) ==> a == b
  {
    if a != [] && b != [] && a[0] == b[0] {
      AtMostTotal(a[1..], b[1..]);
      assert a == [a[0]] + a[1..] && b == [b[0]] + b[1..];
    }
  }

  lemma {:induction false} AtMostTransitive(a: seq<nat>, b: seq<nat>, c: seq<nat>)
    requires UnitsAtMost(a, b) && UnitsAtMost(b, c)
    ensures UnitsAtMost(a, c)
  {
    if a != [] && a[0] == b[0] && b[0] == c[0] {
      AtMostTransitive(a[1..], b[1..], c[1..]);
    }
  }

  // No character's units begin with those of another one.
  lemma FirstCharacter(c: char, d: char, rest: seq<nat>, rest': seq<nat>)
    requires UnitsOf(c) + rest == UnitsOf(d) + rest'
    ensures c == d && rest == rest'
  {
    var left, right := UnitsOf(c) + rest, UnitsOf(d) + rest';
    assert left[0] == right[0];
    if c as int >= 0x10000 && d as int >= 0x10000 {
      assert left[1] == right[1];
    }
    assert c == d;
    assert left[|UnitsOf(c)|..] == rest && right[|UnitsOf(c)|..] == rest';
  }

  /** Different texts have different code units. */
  lemma {:induction false} UnitsTell(a: string, b: string)
    requires Units(a) == Units(b)
    ensures a == b
  {
    if a != "" && b != "" {
      FirstCharacter(a[0], b[0], Units(a[1..]), Units(b[1..]));
      UnitsTell(a[1..], b[1..]);
      assert a == [a[0]] + a[1..] && b == [b[0]] + b[1..];
    }
  }

  // The two first differ at `k`, and there `a` is the smaller one.
  predicate SmallerAt(a: seq<nat>, b: seq<nat>, k: nat) {
    k < |a| && k < |b| && a[..k] == b[..k] && a[k] < b[k]
  }

  lemma SmallerInRest(a: seq<nat>, b: seq<nat>, k: nat)
    requires a != [] && b != [] && SmallerAt(a, b, k)
    ensures a[0] < b[0] || (a[0] == b[0] && k > 0 && SmallerAt(a[1..], b[1..], k - 1))
  {
    if k > 0 {
      assert a[..k][0] == a[0] && b[..k][0] == b[0];
      assert a[1..][..k - 1] == a[..k][1..] && b[1..][..k - 1] == b[..k][1..];
    }
  }

  lemma SmallerLater(a: seq<nat>, b: seq<nat>, k: nat)
    requires a != [] && b != [] && a[0] == b[0] && SmallerAt(a[1..], b[1..], k)
    ensures SmallerAt(a, b, k + 1)
  {
    assert a[..k + 1] == [a[0]] + a[1..][..k] && b[..k + 1] == [b[0]] + b[1..][..k];
  }

  /** One text comes before another when its code units are the first part of the other's, or smaller where the two
      first differ. */
  lemma {:induction false} AtMostMeans(a: seq<nat>, b: seq<nat>)
    ensures UnitsAtMost(a, b) <==> a <= b || exists k :: SmallerAt(a, b, k)
  {
    if a != [] && b != [] {
      AtMostMeans(a[1..], b[1..]);
      assert a == [a[0]] + a[1..] && b == [b[0]] + b[1..];
      if k :| SmallerAt(a, b, k) {
        SmallerInRest(a, b, k);
      }
      if a[0] < b[0] {
        assert SmallerAt(a, b, 0);
      } else if a[0] == b[0] {
        if k :| SmallerAt(a[1..], b[1..], k) {
          SmallerLater(a, b, k);
        }
        assert a <= b <==> a[1..] <= b[1..];
      }
    }
  }

  lemma AtMostOrders()
    ensures Strict(AtMost)
  {
    forall a, b ensures (AtMost(a, b) || AtMost(b, a)) && (AtMost(a, b) && AtMost(b, a) ==> a == b) {
      AtMostTotal(Units(a), Units(b));
      if AtMost(a, b) && AtMost(b, a) {
        UnitsTell(a, b);
      }
    }
    forall a, b, c | AtMost(a, b) && AtMost(b, c) ensures AtMost(a, c) {
      AtMostTransitive(Units(a), Units(b), Units(c));
    }
  }

  // ---------- generateToken ----------

  // The root-level fields that are signed, as a mapping.
  function Root(payload: seq<Field>): map<string, string> {
    if payload == [] then map[]
    else
      var rest := Root(payload[..|payload| - 1]);
      var last := payload[|payload| - 1];
      if Signed(last) then rest[last.key := Shown(last.value)] else rest
  }

  function Joined(keys: seq<string>, data: map<string, string>): string
    requires forall key | key in keys :: key in data
  {
    if keys == [] then "" else Joined(keys[..|keys| - 1], data) + data[keys[|keys| - 1]]
  }

  ghost predicate Lists(keys: seq<string>, data: map<string, string>) {
    && (forall i, j | 0 <= i < j < |keys| :: keys[i] != keys[j])
    && (forall key :: key in keys <==> key in data)
  }

  /** The sorted text depends on the mapping only, not on the order in which its keys were set. */
  lemma OrderDoesNotMatter(a: seq<string>, b: seq<string>, data: map<string, string>)
    requires Lists(a, data) && Lists(b, data)
    ensures Sort(a, AtMost) == Sort(b, AtMost)
  {
    AtMostOrders();
    SortSorts(a, "", AtMost);
    SortSorts(b, "", AtMost);
    forall key ensures multiset(a)[key] == multiset(b)[key] {
      Once(a, key);
      Once(b, key);
    }
    SortedIsUnique(Sort(a, AtMost), Sort(b, AtMost), AtMost);
  }

  lemma {:induction false} Once(keys: seq<string>, key: string)
    requires forall i, j | 0 <= i < j < |keys| :: keys[i] != keys[j]
    ensures multiset(keys)[key] == if key in keys then 1 else 0
  {
    if keys != [] {
      Once(keys[1..], key);
      assert keys == [keys[0]] + keys[1..];
    }
  }

  lemma {:induction false} ListOf(names: set<string>) returns (keys: seq<string>)
    ensures (forall i, j | 0 <= i < j < |keys| :: keys[i] != keys[j]) && forall key :: key in keys <==> key in names
    decreases |names|
  {
    if names == {} {
      keys := [];
    } else {
      var name :| name in names;
      var rest := ListOf(names - {name});
      keys := rest + [name];
      assert forall i | 0 <= i < |rest| :: keys[i] in rest;
    }
  }

  lemma ListExists(data: map<string, string>)
    ensures exists keys :: Lists(keys, data)
  {
    var keys := ListOf(data.Keys);
    assert Lists(keys, data);
  }

  /** The text that is hashed: the values in the order of their keys. */
  ghost function SignedText(data: map<string, string>): string {
    ListExists(data);
    var keys :| Lists(keys, data);
    SortedKeys(keys, data);
    Joined(Sort(keys, AtMost), data)
  }

  lemma SortedKeys(keys: seq<string>, data: map<string, string>)
    requires forall key | key in keys :: key in data
    ensures forall key | key in Sort(keys, AtMost) :: key in data
  {
    SortPermutes(keys, AtMost);
    forall key | key in Sort(keys, AtMost) ensures key in data {
      assert key in multiset(Sort(keys, AtMost));
    }
  }

  lemma AnyListWillDo(keys: seq<string>, data: map<string, string>)
    requires Lists(keys, data)
    ensures forall key | key in Sort(keys, AtMost) :: key in data
    ensures Joined(Sort(keys, AtMost), data) == SignedText(data)
  {
    ListExists(data);
    SortedKeys(keys, data);
    forall other | Lists(other, data) ensures Sort(other, AtMost) == Sort(keys, AtMost) {
      OrderDoesNotMatter(other, keys, data);
    }
  }

  method GenerateToken(payload: seq<Field>, password: string, hash: string -> string) returns (token: string)
    ensures token == hash(SignedText(Root(payload)["Password" := password]))
  {
    var data: map<string, string>, keys := map[], [];
    for i := 0 to |payload|
      invariant data == Root(payload[..i]) && Lists(keys, data)
    {
      assert payload[..i + 1][..i] == payload[..i];
      if Signed(payload[i]) {
        if payload[i].key !in data {
          keys := keys + [payload[i].key];
        }
        data := data[payload[i].key := Shown(payload[i].value)];
      }
    }
    assert payload[..|payload|] == payload;
    if PASSWORD !in data {
      keys := keys + [PASSWORD];
    }
    data := data[PASSWORD := password];
    AnyListWillDo(keys, data);
    token := hash(Joined(Sort(keys, AtMost), data));
  }

  // ---------- verifyNotification ----------

  function Received(payload: seq<Field>): Option<string> {
    if payload == [] then None
    else if payload[0].key == TOKEN then
      match payload[0].value
      case Text(text) => if text == "" then None else Some(text)
      case _ => None
    else Received(payload[1..])
  }

  /** A payload carries a token exactly when its field Token is a text that is not empty. */
  lemma {:induction false} ReceivedMeans(payload: seq<Field>, token: string)
    requires DistinctFields(payload)
    ensures Received(payload) == Some(token) <==> token != "" && Field("Token", Text(token)) in payload
  {
    if payload != [] {
      assert payload == [payload[0]] + payload[1..];
      assert forall i | 0 <= i < |payload[1..]| :: payload[1..][i] == payload[i + 1];
      ReceivedMeans(payload[1..], token);
    }
  }

  function ToLower(text: string): (lower: string)
    ensures |lower| == |text|
  {
    if text == "" then ""
    else [if 'A' <= text[0] <= 'Z' then (text[0] as int + 32) as char else text[0]] + ToLower(text[1..])
  }

  predicate LowerHex(text: string) {
    forall i | 0 <= i < |text| :: '0' <= text[i] <= '9' || 'a' <= text[i] <= 'f'
  }

  // What a hexadecimal digest gives.
  ghost predicate Digest(hash: string -> string) {
    forall text :: hash(text) != "" && LowerHex(hash(text))
  }

  lemma {:induction false} LowerStays(text: string)
    requires LowerHex(text)
    ensures ToLower(text) == text
  {
    if text != "" {
      assert LowerHex(text[1..]) by {
        assert forall i | 0 <= i < |text[1..]| :: text[1..][i] == text[i + 1];
      }
      LowerStays(text[1..]);
      assert text == [text[0]] + text[1..];
    }
  }

  /** A notification is accepted exactly when it carries a token that is, but for upper case, the token of
      its own signed fields. */
  method VerifyNotification(payload: seq<Field>, password: string, hash: string -> string) returns (ok: bool)
    ensures ok <==> Received(payload).Some?
                    && ToLower(Received(payload).value) == hash(SignedText(Root(payload)["Password" := password]))
  {
    var received := Received(payload);
    if received.None? {
      return false;
    }
    var expected := GenerateToken(payload, password, hash);
    ok := expected == ToLower(received.value);
  }

  // ---------- buildPayload ----------

  // Sets a key of an object: in its place when it is there, else at the end.
  function Set(payload: seq<Field>, key: string, value: Value): seq<Field> {
    if payload == [] then [Field(key, value)]
    else if payload[0].key == key then [Field(key, value)] + payload[1..]
    else [payload[0]] + Set(payload[1..], key, value)
  }

  lemma {:induction false} SetMeans(payload: seq<Field>, key: string, value: Value, f: Field)
    requires DistinctFields(payload)
    ensures DistinctFields(Set(payload, key, value))
    ensures f in Set(payload, key, value) <==> f == Field(key, value) || (f in payload && f.key != key)
  {
    if payload != [] {
      var rest := payload[1..];
      assert payload == [payload[0]] + rest;
      assert forall i | 0 <= i < |rest| :: rest[i] == payload[i + 1];
      SetMeans(rest, key, value, f);
      if payload[0].key != key {
        forall i | 0 <= i < |Set(rest, key, value)| ensures Set(rest, key, value)[i].key != payload[0].key {
          SetMeans(rest, key, value, Set(rest, key, value)[i]);
        }
      }
    }
  }

  // The field is signed with that key and text: not the token itself, and no object.
  predicate Signs(f: Field, key: string, text: string) {
    && f.key == key && key != "Token"
    && match f.value
       case Text(t) => text == t
       case Number(t) => text == t
       case Flag(flag) => text == if flag then "true" else "false"
       case Nested => false
  }

  predicate Carries(payload: seq<Field>, key: string, text: string) {
    exists f | f in payload :: Signs(f, key, text)
  }

  lemma {:induction false} RootMeans(payload: seq<Field>, key: string, text: string)
    requires DistinctFields(payload)
    ensures key in Root(payload) && Root(payload)[key] == text <==> Carries(payload, key, text)
  {
    if payload != [] {
      var init, last := payload[..|payload| - 1], payload[|payload| - 1];
      assert payload == init + [last];
      RootMeans(init, key, text);
      if Carries(init, key, text) {
        var f :| f in init && Signs(f, key, text);
        assert f in payload;
      }
      if Signs(last, key, text) {
        assert last in payload;
      }
      assert forall f | f in init :: f.key != last.key;
    }
  }

  ghost predicate SameSigned(a: seq<Field>, b: seq<Field>) {
    forall key, text :: Carries(a, key, text) <==> Carries(b, key, text)
  }

  /** Payloads have the same signed mapping, and with it the same token, exactly when they carry the same
      signed fields: the order of the keys, nested fields and the Token field make no difference. */
  lemma SameFieldsSameRoot(a: seq<Field>, b: seq<Field>)
    requires DistinctFields(a) && DistinctFields(b)
    ensures SameSigned(a, b) <==> Root(a) == Root(b)
  {
    if SameSigned(a, b) {
      forall key ensures key in Root(a) ==> key in Root(b) && Root(b)[key] == Root(a)[key] {
        if key in Root(a) {
          RootMeans(a, key, Root(a)[key]);
          RootMeans(b, key, Root(a)[key]);
        }
      }
      forall key ensures key in Root(b) ==> key in Root(a) {
        if key in Root(b) {
          RootMeans(b, key, Root(b)[key]);
          RootMeans(a, key, Root(b)[key]);
        }
      }
    }
    if Root(a) == Root(b) {
      forall key, text ensures Carries(a, key, text) <==> Carries(b, key, text) {
        RootMeans(a, key, text);
        RootMeans(b, key, text);
      }
    }
  }

  /** Every payload the backend builds has its terminal, hook and success page, and carries the token a verification
      of it expects. */
  method BuildPayload(data: seq<Field>, terminal: Value, hook: Value, password: string, hash: string -> string)
    returns (payload: seq<Field>)
    requires DistinctFields(data) && Digest(hash)
    ensures DistinctFields(payload)
    ensures Received(payload).Some?
    ensures ToLower(Received(payload).value) == hash(SignedText(Root(payload)["Password" := password]))
    ensures Field("TerminalKey", terminal) in payload && Field("NotificationURL", hook) in payload
    ensures Field("SuccessURL", Text("https://jetsim.ru/myesim")) in payload
    ensures forall f :: f in payload && f.key !in {"Token", "TerminalKey", "NotificationURL", "SuccessURL"} <==>
                        f in data && f.key !in {"Token", "TerminalKey", "NotificationURL", "SuccessURL"}
  {
    var success := Text("https://jetsim.ru/myesim");
    payload := Set(Set(Set(data, "TerminalKey", terminal), "NotificationURL", hook), "SuccessURL", success);
    forall f
      ensures DistinctFields(payload)
      ensures f in [Field("TerminalKey", terminal), Field("NotificationURL", hook), Field("SuccessURL", success)] ==>
                f in payload
      ensures f in payload && f.key !in {TOKEN, "TerminalKey", "NotificationURL", "SuccessURL"} <==>
              f in data && f.key !in {TOKEN, "TerminalKey", "NotificationURL", "SuccessURL"}
    {
      SetMeans(data, "TerminalKey", terminal, f);
      SetMeans(Set(data, "TerminalKey", terminal), "NotificationURL", hook, f);
      SetMeans(Set(Set(data, "TerminalKey", terminal), "NotificationURL", hook), "SuccessURL", success, f);
    }
    var fields := [Field("TerminalKey", terminal), Field("NotificationURL", hook), Field("SuccessURL", success)];
    assert fields[0] in payload && fields[1] in payload && fields[2] in payload;
    var token := GenerateToken(payload, password, hash);
    TokenIsNotSigned(payload, token);
    TokenIsReceived(payload, token);
    LowerStays(token);
    forall f ensures f in Set(payload, TOKEN, Text(token)) && f.key != TOKEN <==> f in payload && f.key != TOKEN {
      SetMeans(payload, TOKEN, Text(token), f);
    }
    payload := Set(payload, TOKEN, Text(token));
  }

  lemma TokenIsNotSigned(payload: seq<Field>, token: string)
    requires DistinctFields(payload)
    ensures DistinctFields(Set(payload, TOKEN, Text(token))) && Root(Set(payload, TOKEN, Text(token))) == Root(payload)
  {
    var after := Set(payload, TOKEN, Text(token));
    forall f ensures DistinctFields(after) && (f in after && f.key != TOKEN <==> f in payload && f.key != TOKEN) {
      SetMeans(payload, TOKEN, Text(token), f);
    }
    assert SameSigned(after, payload);
    SameFieldsSameRoot(after, payload);
  }

  lemma {:induction false} TokenIsReceived(payload: seq<Field>, token: string)
    requires token != ""
    ensures Received(Set(payload, TOKEN, Text(token))) == Some(token)
  {
    if payload != [] && payload[0].key != TOKEN {
      TokenIsReceived(payload[1..], token);
      assert ([payload[0]] + Set(payload[1..], TOKEN, Text(token)))[1..] == Set(payload[1..], TOKEN, Text(token));
    }
  }
}
