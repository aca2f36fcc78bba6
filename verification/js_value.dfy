/** The slice of JavaScript's value model that the schema compiler and the
    module loader rely on: truthiness, `a || b`, property access, `split('.')`,
    `startsWith`, `toLowerCase`, and objects whose keys keep insertion order. */
module JsValue {

  datatype Option<+T> = None | Some(value: T)

  /** A JavaScript value. Numbers are integers; a function value is known only
      by an identity, which the environment uses to say what calling it does. */
  datatype Value =
    | Undefined
    | Null
    | Bool(b: bool)
    | Num(n: int)
    | Str(s: string)
    | Arr(items: seq<Value>)
    | Obj(fields: map<string, Value>)
    | Func(id: nat)
  {
    /** `v === undefined || v === null`: reading a property of such a value throws. */
    predicate Nullish() {
      Undefined? || Null?
    }

    /** JavaScript truthiness: undefined, null, false, 0 and "" are falsy. */
    predicate Truthy() {
      match this
      case Undefined => false
      case Null => false
      case Bool(b) => b
      case Num(n) => n != 0
      case Str(s) => s != ""
      case _ => true
    }
  }

  /** `a || b` */
  function Or(a: Value, b: Value): Value {
    if a.Truthy() then a else b
  }

  predicate IsDigit(c: char) {
    '0' <= c <= '9'
  }

  function DigitsValue(s: string): nat
    requires forall i :: 0 <= i < |s| ==> IsDigit(s[i])
  {
    if s == [] then 0
    else
      assert IsDigit(s[|s| - 1]);
      DigitsValue(s[..|s| - 1]) * 10 + (s[|s| - 1] as int - '0' as int)
  }

  /** The array index a property key denotes: a decimal numeral without leading zeros. */
  function ArrayIndex(key: string): Option<nat> {
    if key != [] && (forall i :: 0 <= i < |key| ==> IsDigit(key[i])) && (key[0] != '0' || |key| == 1)
    then Some(DigitsValue(key))
    else None
  }

  /** `v[key]`. Reading a property of undefined or null is a TypeError, so
      callers first rule those out. */
  function Prop(v: Value, key: string): Value
    requires !v.Nullish()
  {
    match v
    case Obj(fields) => if key in fields then fields[key] else Undefined
    case Arr(items) =>
      if key == "length" then Num(|items|)
      else (match ArrayIndex(key)
            case Some(i) => if i < |items| then items[i] else Undefined
            case None => Undefined)
    case Str(s) =>
      if key == "length" then Num(|s|)
      else (match ArrayIndex(key)
            case Some(i) => if i < |s| then Str([s[i]]) else Undefined
            case None => Undefined)
    case _ => Undefined
  }

  /** `s.startsWith(prefix)` */
  predicate StartsWith(s: string, prefix: string) {
    |prefix| <= |s| && s[..|prefix|] == prefix
  }

  predicate IsUpper(c: char) {
    'A' <= c <= 'Z'
  }

  function LowerChar(c: char): char {
    if IsUpper(c) then (c as int + 32) as char else c
  }

  /** `s.toLowerCase()` on ASCII letters */
  function ToLower(s: string): string {
    seq(|s|, i requires 0 <= i < |s| => LowerChar(s[i]))
  }

  /** `s.split('.')`: the segments between dots, empty ones included. */
  function Split(s: string): (parts: seq<string>)
    ensures parts != []
  {
    if s == [] then [""]
    else
      var rest := Split(s[1..]);
      if s[0] == '.' then [""] + rest else [[s[0]] + rest[0]] + rest[1..]
  }

  /** `parts.join('.')` */
  function Join(parts: seq<string>): string
    requires parts != []
  {
    if |parts| == 1 then parts[0] else parts[0] + "." + Join(parts[1..])
  }

  /** Splitting at the dots loses nothing: joining the segments gives the path
      back, and no segment contains a dot. */
  lemma {:induction false} SplitJoin(s: string)
    ensures Join(Split(s)) == s
    ensures forall i :: 0 <= i < |Split(s)| ==> '.' !in Split(s)[i]
  {
    if s != [] {
      SplitJoin(s[1..]);
      var rest := Split(s[1..]);
      if s[0] == '.' {
        assert Split(s) == [""] + rest;
        assert Split(s)[1..] == rest;
        assert s == [s[0]] + s[1..];
      } else {
        var parts := Split(s);
        assert parts == [[s[0]] + rest[0]] + rest[1..];
        if |rest| == 1 {
          assert s == [s[0]] + s[1..];
        } else {
          assert parts[1..] == rest[1..];
          assert Join(rest) == rest[0] + "." + Join(rest[1..]);
          assert s == [s[0]] + s[1..];
        }
        forall i | 0 <= i < |parts| ensures '.' !in parts[i] {
          if i > 0 {
            assert parts[i] == rest[i];
          }
        }
      }
    }
  }

  /** A path without a dot is a single segment. */
  lemma {:induction false} SplitWithoutDot(s: string)
    requires '.' !in s
    ensures Split(s) == [s]
  {
    if s != [] {
      assert '.' !in s[1..] by {
        forall i | 0 <= i < |s[1..]| ensures s[1..][i] != '.' {
          assert s[1..][i] == s[i + 1];
        }
      }
      SplitWithoutDot(s[1..]);
      assert s == [s[0]] + s[1..];
    }
  }

  /** A JavaScript object whose keys keep insertion order (`Object.keys`). */
  datatype Ordered<T> = Ordered(keys: seq<string>, vals: map<string, T>)
  {
    ghost predicate Valid() {
      && (forall i :: 0 <= i < |keys| ==> keys[i] !in keys[..i])
      && (forall k :: k in vals <==> k in keys)
    }

    /** `obj[k] = v`: a new key goes to the end, an existing key keeps its place. */
    function Put(k: string, v: T): (r: Ordered<T>)
      ensures r.vals == vals[k := v]
      ensures r.keys == if k in vals then keys else keys + [k]
    {
      Ordered(if k in vals then keys else keys + [k], vals[k := v])
    }
  }

  /** Assignment keeps the keys distinct and in step with the entries. */
  lemma PutValid<T>(o: Ordered<T>, k: string, v: T)
    requires o.Valid()
    ensures o.Put(k, v).Valid()
  {
  }

  /** Assigning a key twice keeps only the second value, at the first place. */
  lemma PutTwice<T>(o: Ordered<T>, k: string, a: T, b: T)
    ensures o.Put(k, a).Put(k, b) == o.Put(k, b)
  {
    assert o.vals[k := a][k := b] == o.vals[k := b];
  }

  function EmptyObject<T>(): (r: Ordered<T>)
    ensures r.Valid()
  {
    Ordered([], map[])
  }
}
