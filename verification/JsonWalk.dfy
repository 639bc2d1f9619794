/** The walk that rejects JSON documents in which an object repeats a key.

A document is given by its tokens: commas and colons are the decoder's business. RFC 8259, section 4,
leaves repeated names to the implementation; this one refuses them. */
module JsonWalk {

  import opened Optional

  datatype Token = Literal | Text(text: string) | OpenArray | CloseArray | OpenObject | CloseObject

  type Tokens = seq<Token>

  // ---------------------------------------------------------------- documents

  datatype Json = Atom | Name(text: string) | Arr(items: Items) | Obj(members: Members)

  datatype Items = NoItems | Item(head: Json, tail: Items)

  datatype Members = NoMembers | Member(key: string, value: Json, rest: Members)

  function TokensOf(v: Json): Tokens {
    match v
    case Atom => [Literal]
    case Name(s) => [Text(s)]
    case Arr(items) => [OpenArray] + TokensOfItems(items) + [CloseArray]
    case Obj(members) => [OpenObject] + TokensOfMembers(members) + [CloseObject]
  }

  function TokensOfItems(items: Items): Tokens {
    match items
    case NoItems => []
    case Item(head, tail) => TokensOf(head) + TokensOfItems(tail)
  }

  function TokensOfMembers(members: Members): Tokens {
    match members
    case NoMembers => []
    case Member(key, value, rest) => [Text(key)] + TokensOf(value) + TokensOfMembers(rest)
  }

  function Keys(members: Members): set<string> {
    match members
    case NoMembers => {}
    case Member(key, _, rest) => {key} + Keys(rest)
  }

  /** No object of the document repeats a key. */
  predicate Unique(v: Json) {
    match v
    case Arr(items) => UniqueItems(items)
    case Obj(members) => UniqueMembers(members)
    case _ => true
  }

  predicate UniqueItems(items: Items) {
    items.Item? ==> Unique(items.head) && UniqueItems(items.tail)
  }

  predicate UniqueMembers(members: Members) {
    members.Member? ==> members.key !in Keys(members.rest) && Unique(members.value) && UniqueMembers(members.rest)
  }

  // ---------------------------------------------------------------- the walk as a function

  /** The tokens after one value, if the walk accepts it. */
  function WalkValue(t: Tokens): (r: Option<Tokens>)
    ensures r.Some? ==> |r.value| < |t|
    decreases |t|, 0
  {
    if t == [] then None
    else match t[0]
      case OpenArray => WalkItems(t[1..])
      case OpenObject => WalkMembers(t[1..], {})
      case CloseArray => None
      case CloseObject => None
      case _ => Some(t[1..])
  }

  function WalkItems(t: Tokens): (r: Option<Tokens>)
    ensures r.Some? ==> |r.value| < |t|
    decreases |t|, 1
  {
    if t == [] || t[0] == CloseObject then None
    else if t[0] == CloseArray then Some(t[1..])
    else
      var next := WalkValue(t);
      if next.None? then None else WalkItems(next.value)
  }

  function WalkMembers(t: Tokens, seen: set<string>): (r: Option<Tokens>)
    ensures r.Some? ==> |r.value| < |t|
    decreases |t|, 1
  {
    if t == [] then None
    else if t[0] == CloseObject then Some(t[1..])
    else if !t[0].Text? || t[0].text in seen then None
    else
      var next := WalkValue(t[1..]);
      if next.None? then None else WalkMembers(next.value, seen + {t[0].text})
  }

  // ---------------------------------------------------------------- what the walk accepts

  lemma StartsValue(v: Json)
    ensures TokensOf(v) != [] && TokensOf(v)[0] !in {CloseArray, CloseObject}
  {
  }

  /** On the tokens of a value the walk consumes exactly these, and accepts exactly if no key is repeated. */
  lemma {:induction false} WalkConsumesValue(v: Json, after: Tokens)
    ensures WalkValue(TokensOf(v) + after) == if Unique(v) then Some(after) else None
    decreases v
  {
    var t := TokensOf(v) + after;
    match v
    case Atom =>
    case Name(s) =>
    case Arr(items) =>
      assert t[1..] == TokensOfItems(items) + ([CloseArray] + after);
      WalkConsumesItems(items, after);
    case Obj(members) =>
      assert t[1..] == TokensOfMembers(members) + ([CloseObject] + after);
      WalkConsumesMembers(members, {}, after);
  }

  lemma {:induction false} WalkConsumesItems(items: Items, after: Tokens)
    ensures WalkItems(TokensOfItems(items) + ([CloseArray] + after)) == if UniqueItems(items) then Some(after) else None
    decreases items
  {
    var end := [CloseArray] + after;
    match items
    case NoItems =>
      assert TokensOfItems(items) + end == end;
    case Item(head, tail) =>
      StartsValue(head);
      var t := TokensOfItems(items) + end;
      assert t == TokensOf(head) + (TokensOfItems(tail) + end);
      WalkConsumesValue(head, TokensOfItems(tail) + end);
      WalkConsumesItems(tail, after);
  }

  lemma {:induction false} WalkConsumesMembers(members: Members, seen: set<string>, after: Tokens)
    ensures WalkMembers(TokensOfMembers(members) + ([CloseObject] + after), seen)
         == if UniqueMembers(members) && Keys(members) !! seen then Some(after) else None
    decreases members
  {
    var end := [CloseObject] + after;
    match members
    case NoMembers =>
      assert TokensOfMembers(members) + end == end;
    case Member(key, value, rest) =>
      var t := TokensOfMembers(members) + end;
      assert t[0] == Text(key) && t[1..] == TokensOf(value) + (TokensOfMembers(rest) + end);
      WalkConsumesValue(value, TokensOfMembers(rest) + end);
      WalkConsumesMembers(rest, seen + {key}, after);
  }

  /** The walk accepts nothing else: what it consumed are the tokens of a value without repeated keys. */
  lemma {:induction false} WalkedIsValue(t: Tokens) returns (v: Json)
    requires WalkValue(t).Some?
    ensures Unique(v) && t == TokensOf(v) + WalkValue(t).value
    decreases |t|, 0
  {
    match t[0]
    case OpenArray =>
      var items := WalkedAreItems(t[1..]);
      v := Arr(items);
    case OpenObject =>
      var members := WalkedAreMembers(t[1..], {});
      v := Obj(members);
    case Literal => v := Atom;
    case Text(s) => v := Name(s);
  }

  lemma {:induction false} WalkedAreItems(t: Tokens) returns (items: Items)
    requires WalkItems(t).Some?
    ensures UniqueItems(items) && t == TokensOfItems(items) + [CloseArray] + WalkItems(t).value
    decreases |t|, 1
  {
    if t[0] == CloseArray {
      items := NoItems;
    } else {
      var head := WalkedIsValue(t);
      var tail := WalkedAreItems(WalkValue(t).value);
      items := Item(head, tail);
    }
  }

  /** How the walk over the members goes on after the first one. */
  lemma WalkMembersOn(t: Tokens, seen: set<string>)
    requires WalkMembers(t, seen).Some? && t[0] != CloseObject
    ensures t[0].Text? && t[0].text !in seen && WalkValue(t[1..]).Some?
    ensures WalkMembers(t, seen) == WalkMembers(WalkValue(t[1..]).value, seen + {t[0].text})
  {
    hide WalkValue;
  }

  lemma MemberTokens(t: Tokens, key: string, value: Json, rest: Members, after: Tokens, end: Tokens)
    requires t != [] && t[0] == Text(key) && t[1..] == TokensOf(value) + after
    requires after == TokensOfMembers(rest) + [CloseObject] + end
    ensures t == TokensOfMembers(Member(key, value, rest)) + [CloseObject] + end
  {
    hide TokensOf;
    assert t == [t[0]] + t[1..];
  }

  lemma {:induction false} WalkedAreMembers(t: Tokens, seen: set<string>) returns (members: Members)
    requires WalkMembers(t, seen).Some?
    ensures UniqueMembers(members) && Keys(members) !! seen
    ensures t == TokensOfMembers(members) + [CloseObject] + WalkMembers(t, seen).value
    decreases |t|, 1
  {
    if t[0] == CloseObject {
      members := NoMembers;
    } else {
      WalkMembersOn(t, seen);
      hide WalkMembers, WalkValue, TokensOf, TokensOfMembers, Unique;
      var key, after := t[0].text, WalkValue(t[1..]).value;
      var value := WalkedIsValue(t[1..]);
      var rest := WalkedAreMembers(after, seen + {key});
      members := Member(key, value, rest);
      MemberTokens(t, key, value, rest, after, WalkMembers(t, seen).value);
    }
  }

  // ---------------------------------------------------------------- the walk as it is done

  /** The token reader. */
  class Decoder {
    var rest: Tokens

    constructor (t: Tokens)
      ensures rest == t
    {
      rest := t;
    }

    /** The next token, or an error at the end of the input. */
    method Next() returns (t: Option<Token>)
      modifies this
      ensures old(rest) == [] ==> t == None && rest == []
      ensures old(rest) != [] ==> t == Some(old(rest)[0]) && rest == old(rest)[1..]
    {
      t := None;
      if rest != [] {
        t, rest := Some(rest[0]), rest[1..];
      }
    }

    /** Whether the array or object being read goes on. */
    predicate More()
      reads this
    {
      rest != [] && rest[0] !in {CloseArray, CloseObject}
    }

    method Walk() returns (ok: bool)
      modifies this
      ensures ok == WalkValue(old(rest)).Some?
      ensures ok ==> rest == WalkValue(old(rest)).value
      decreases |rest|, 0
    {
      var t := Next();
      if t.None? {
        return false;
      }
      match t.value {
        case OpenObject =>
          ok := WalkObject();
        case OpenArray =>
          ok := WalkArray();
        case CloseArray =>
          return false;
        case CloseObject =>
          return false;
        case _ =>
          return true;
      }
    }

    method WalkObject() returns (ok: bool)
      modifies this
      ensures ok == WalkMembers(old(rest), {}).Some?
      ensures ok ==> rest == WalkMembers(old(rest), {}).value
      decreases |rest|, 1
    {
      var seen: set<string> := {};
      ghost var all := WalkMembers(rest, {});
      while More()
        invariant WalkMembers(rest, seen) == all && |rest| <= |old(rest)|
        decreases |rest|
      {
        var key := Next();
        if !key.value.Text? || key.value.text in seen {
          return false;
        }
        seen := seen + {key.value.text};
        ok := Walk();
        if !ok {
          return;
        }
      }
      var last := Next();
      ok := last == Some(CloseObject);
    }

    method WalkArray() returns (ok: bool)
      modifies this
      ensures ok == WalkItems(old(rest)).Some?
      ensures ok ==> rest == WalkItems(old(rest)).value
      decreases |rest|, 1
    {
      ghost var all := WalkItems(rest);
      while More()
        invariant WalkItems(rest) == all && |rest| <= |old(rest)|
        decreases |rest|
      {
        ok := Walk();
        if !ok {
          return;
        }
      }
      var last := Next();
      ok := last == Some(CloseArray);
    }
  }

  /** Accepts exactly the documents that are one value in which no object repeats a key. */
  method RejectDuplicateKeys(t: Tokens) returns (ok: bool)
    ensures ok <==> exists v :: Unique(v) && TokensOf(v) == t
  {
    var decoder := new Decoder(t);
    ok := decoder.Walk();
    if ok {
      ghost var v := WalkedIsValue(t);
      ok := decoder.rest == [];
      if ok {
        assert TokensOf(v) + [] == TokensOf(v);
      }
    }
    forall v | Unique(v) && TokensOf(v) == t
      ensures ok
    {
      WalkConsumesValue(v, []);
      assert TokensOf(v) + [] == t;
    }
  }
}
