/** Deep conversion of a script value into host-native values: a script array
    becomes a list, a script object becomes a dict with string keys, anything
    else is returned as it is. Values are finite trees here. */
module Utils {

  /** Host scalars: the primitives a value or an enumerated member name can
      be (floating point numbers are not modelled). */
  datatype Scalar = PyNone | PyBool(b: bool) | PyInt(i: int) | PyStr(s: string)

  /** The values convert can meet. JSArray and JSObject are script handles of
      exactly those two types; Other is any other object, such as a script
      function or a handle of a subclass, which convert passes through. List
      and Dict are the host's own containers. */
  datatype Value =
    | Prim(x: Scalar)
    | Other(id: nat)
    | JSArray(items: seq<Value>)
    | JSObject(members: seq<(Scalar, Value)>)
    | List(elems: seq<Value>)
    | Dict(entries: map<Scalar, Value>)

  function DigitChar(d: nat): (c: char)
    requires d < 10
    ensures '0' <= c <= '9' && c as int - '0' as int == d
  {
    ('0' as int + d) as char
  }

  predicate IsDigits(s: string)
  {
    forall k :: 0 <= k < |s| ==> '0' <= s[k] <= '9'
  }

  /** The number a string of decimal digits denotes. */
  function DecimalValue(s: string): nat
    requires IsDigits(s)
  {
    if s == [] then 0 else DecimalValue(s[..|s| - 1]) * 10 + (s[|s| - 1] as int - '0' as int)
  }

  /** The decimal digits of n, most significant first, with no leading zero. */
  function NatToDecimal(n: nat): (r: string)
    ensures |r| > 0 && IsDigits(r)
    ensures |r| > 1 ==> r[0] != '0'
  {
    if n < 10 then [DigitChar(n)] else NatToDecimal(n / 10) + [DigitChar(n % 10)]
  }

  /** str(x) for a scalar. */
  function Str(x: Scalar): (r: string)
    ensures x.PyStr? ==> r == x.s
    ensures x.PyInt? ==> |r| > 0 && (r[0] == '-' <==> x.i < 0)
    ensures x.PyBool? ==> r == (if x.b then "True" else "False")
  {
    match x
    case PyNone => "None"
    case PyBool(b) => if b then "True" else "False"
    case PyInt(i) => if i < 0 then "-" + NatToDecimal(-i) else NatToDecimal(i)
    case PyStr(s) => s
  }

  /** Reading the digits of n back gives n. */
  lemma {:induction false} DecimalRoundTrip(n: nat)
    ensures DecimalValue(NatToDecimal(n)) == n
  {
    if n >= 10 {
      var s := NatToDecimal(n);
      assert s[..|s| - 1] == NatToDecimal(n / 10);
      DecimalRoundTrip(n / 10);
    }
  }

  /** str() of an integer is its decimal digits, after a minus sign when it
      is negative. */
  lemma StrOfInt(i: int)
    ensures i >= 0 ==> IsDigits(Str(PyInt(i))) && DecimalValue(Str(PyInt(i))) == i
    ensures i < 0 ==> Str(PyInt(i))[0] == '-' && IsDigits(Str(PyInt(i))[1..])
                      && DecimalValue(Str(PyInt(i))[1..]) == -i
  {
    if i >= 0 {
      DecimalRoundTrip(i);
    } else {
      assert Str(PyInt(i))[1..] == NatToDecimal(-i);
      DecimalRoundTrip(-i);
    }
  }

  /** Distinct integers have distinct str() names. */
  lemma StrIntInjective(i: int, j: int)
    requires Str(PyInt(i)) == Str(PyInt(j))
    ensures i == j
  {
    StrOfInt(i);
    StrOfInt(j);
  }

  /** dict(pairs): insert the pairs left to right, so a later pair replaces
      an earlier pair with the same key. */
  function DictOf(pairs: seq<(Scalar, Value)>): (r: map<Scalar, Value>)
    ensures |r| <= |pairs|
    ensures r == map[] <==> pairs == []
  {
    if pairs == [] then map[]
    else DictOf(pairs[..|pairs| - 1])[pairs[|pairs| - 1].0 := pairs[|pairs| - 1].1]
  }

  /** A value built only from scalars, script arrays and script objects. */
  predicate ScriptTree(v: Value)
  {
    match v
    case Prim(_) => true
    case JSArray(items) => forall i :: 0 <= i < |items| ==> ScriptTree(items[i])
    case JSObject(members) => forall i :: 0 <= i < |members| ==> ScriptTree(members[i].1)
    case _ => false
  }

  /** A fully host-native value: scalars, lists and dicts whose keys are all
      strings, at every depth; no script handle anywhere. */
  predicate HostTree(v: Value)
  {
    match v
    case Prim(_) => true
    case List(elems) => forall i :: 0 <= i < |elems| ==> HostTree(elems[i])
    case Dict(entries) => forall k :: k in entries ==> k.PyStr? && HostTree(entries[k])
    case _ => false
  }

  /** The pairs a script object's members become: the member name passed
      through str(), and the converted attribute, in enumeration order. */
  function MemberPairs(members: seq<(Scalar, Value)>): seq<(Scalar, Value)>
    decreases JSObject(members), 0
  {
    seq(|members|, i requires 0 <= i < |members| => (PyStr(Str(members[i].0)), Convert(members[i].1)))
  }

  /** convert: the top-level result is never a script handle; an array keeps
      its length, an object yields only string keys, and anything else comes
      back unchanged. */
  function Convert(v: Value): (r: Value)
    ensures !r.JSArray? && !r.JSObject?
    ensures v.JSArray? ==> r.List? && |r.elems| == |v.items|
    ensures v.JSObject? ==> r.Dict? && forall k :: k in r.entries ==> k.PyStr?
    ensures !v.JSArray? && !v.JSObject? ==> r == v
    decreases v, 1
  {
    match v
    case JSArray(items) =>
      List(seq(|items|, i requires 0 <= i < |items| => Convert(items[i])))
    case JSObject(members) =>
      var pairs := MemberPairs(members);
      DictOfKeys(pairs);
      Dict(DictOf(pairs))
    case _ => v
  }

  /** The keys of dict(pairs) are exactly the keys of the pairs. */
  lemma {:induction false} DictOfKeys(pairs: seq<(Scalar, Value)>)
    ensures DictOf(pairs).Keys == set i | 0 <= i < |pairs| :: pairs[i].0
  {
    if pairs != [] {
      var init := pairs[..|pairs| - 1];
      DictOfKeys(init);
      assert forall i :: 0 <= i < |init| ==> init[i] == pairs[i];
    }
  }

  /** Every entry of dict(pairs) is one of the pairs. */
  lemma {:induction false} DictOfEntryFromPair(pairs: seq<(Scalar, Value)>, k: Scalar)
    requires k in DictOf(pairs)
    ensures exists i :: 0 <= i < |pairs| && pairs[i] == (k, DictOf(pairs)[k])
  {
    var n := |pairs| - 1;
    if pairs[n].0 != k {
      var init := pairs[..n];
      DictOfEntryFromPair(init, k);
      var i :| 0 <= i < |init| && init[i] == (k, DictOf(init)[k]);
      assert pairs[i] == init[i];
    } else {
      assert pairs[n] == (k, DictOf(pairs)[k]);
    }
  }

  /** The pair at position i decides its key's entry when no later pair has
      the same key. */
  lemma {:induction false} DictOfLastWins(pairs: seq<(Scalar, Value)>, i: nat)
    requires i < |pairs|
    requires forall j :: i < j < |pairs| ==> pairs[j].0 != pairs[i].0
    ensures pairs[i].0 in DictOf(pairs) && DictOf(pairs)[pairs[i].0] == pairs[i].1
  {
    var n := |pairs| - 1;
    if i < n {
      var init := pairs[..n];
      assert init[i] == pairs[i];
      DictOfLastWins(init, i);
    }
  }

  /** With pairwise distinct keys, dict(pairs) has one entry per pair. */
  lemma {:induction false} DictOfSize(pairs: seq<(Scalar, Value)>)
    requires forall i, j :: 0 <= i < j < |pairs| ==> pairs[i].0 != pairs[j].0
    ensures |DictOf(pairs)| == |pairs|
  {
    if pairs != [] {
      var n := |pairs| - 1;
      var init := pairs[..n];
      DictOfSize(init);
      DictOfKeys(init);
      assert pairs[n].0 !in DictOf(init);
    }
  }

  /** A script array becomes a list of the same length whose element i is
      the conversion of element i. */
  lemma ArrayBecomesList(items: seq<Value>)
    ensures Convert(JSArray(items)).List?
    ensures |Convert(JSArray(items)).elems| == |items|
    ensures forall i :: 0 <= i < |items| ==> Convert(JSArray(items)).elems[i] == Convert(items[i])
  {
  }

  /** A script object becomes a dict whose keys are exactly str() of the
      enumerated member names, and whose entry for a member's name is that
      member's converted attribute, unless a later member has the same name. */
  lemma {:induction false} ObjectBecomesDict(members: seq<(Scalar, Value)>)
    ensures Convert(JSObject(members)).Dict?
    ensures Convert(JSObject(members)).entries.Keys == set i | 0 <= i < |members| :: PyStr(Str(members[i].0))
    ensures forall i :: 0 <= i < |members| && (forall j :: i < j < |members| ==> Str(members[j].0) != Str(members[i].0)) ==>
      Convert(JSObject(members)).entries[PyStr(Str(members[i].0))] == Convert(members[i].1)
  {
    var pairs := MemberPairs(members);
    var m := Convert(JSObject(members)).entries;
    assert m == DictOf(pairs);
    DictOfKeys(pairs);
    assert (set i | 0 <= i < |pairs| :: pairs[i].0) == (set i | 0 <= i < |members| :: PyStr(Str(members[i].0))) by {
      assert forall i :: 0 <= i < |pairs| ==> pairs[i].0 == PyStr(Str(members[i].0));
    }
    forall i | 0 <= i < |members| && (forall j :: i < j < |members| ==> Str(members[j].0) != Str(members[i].0))
      ensures m[PyStr(Str(members[i].0))] == Convert(members[i].1)
    {
      DictOfLastWins(pairs, i);
    }
  }

  /** A script object whose member names stay distinct under str() gives one
      dict entry per member. */
  lemma {:induction false} ObjectEntryPerMember(members: seq<(Scalar, Value)>)
    requires forall i, j :: 0 <= i < j < |members| ==> Str(members[i].0) != Str(members[j].0)
    ensures |Convert(JSObject(members)).entries| == |members|
  {
    var pairs := MemberPairs(members);
    DictOfSize(pairs);
  }

  /** Converting a converted value changes nothing: a converted value is
      never a script array or object at the top, and any such value is its
      own conversion. */
  lemma Idempotent(v: Value)
    ensures Convert(Convert(v)) == Convert(v)
  {
  }

  /** Converting a tree of scalars, script arrays and script objects leaves
      no script handle at any depth, and every dict key is a string. */
  lemma {:induction false} NoHandlesRemain(v: Value)
    requires ScriptTree(v)
    ensures HostTree(Convert(v))
    decreases v
  {
    match v
    case Prim(_) =>
    case JSArray(items) =>
      var r := Convert(v);
      forall i | 0 <= i < |r.elems|
        ensures HostTree(r.elems[i])
      {
        NoHandlesRemain(items[i]);
      }
    case JSObject(members) =>
      var pairs := MemberPairs(members);
      var m := DictOf(pairs);
      assert Convert(v) == Dict(m);
      forall k | k in m
        ensures k.PyStr? && HostTree(m[k])
      {
        DictOfEntryFromPair(pairs, k);
        var i :| 0 <= i < |pairs| && pairs[i] == (k, m[k]);
        NoHandlesRemain(members[i].1);
      }
  }

  /** The member `c` of the dict test's object, less its `float` member,
      converts to a dict holding a string and a nested dict. */
  lemma InnerObjectExample()
    ensures Convert(JSObject([
              (PyStr("str"), Prim(PyStr("goofy"))),
              (PyStr("obj"), JSObject([(PyStr("name"), Prim(PyStr("john doe")))]))]))
         == Dict(map[
              PyStr("str") := Prim(PyStr("goofy")),
              PyStr("obj") := Dict(map[PyStr("name") := Prim(PyStr("john doe"))])])
  {
    var name := [(PyStr("name"), Prim(PyStr("john doe")))];
    var nameDict := Dict(map[PyStr("name") := Prim(PyStr("john doe"))]);
    assert MemberPairs(name) == name;
    assert Convert(JSObject(name)) == nameDict;
    var c := [(PyStr("str"), Prim(PyStr("goofy"))), (PyStr("obj"), JSObject(name))];
    var pairs := [(PyStr("str"), Prim(PyStr("goofy"))), (PyStr("obj"), nameDict)];
    assert MemberPairs(c) == pairs;
    assert DictOf(pairs[..1]) == map[pairs[0].0 := pairs[0].1] by {
      assert pairs[..1][..0] == [];
    }
    assert DictOf(pairs) == DictOf(pairs[..1])[pairs[1].0 := pairs[1].1];
  }

  /** The nested object of the wrapper's dict test converts to the nested
      dict the test expects, less the member `c.float`, whose value is a
      floating point number. */
  lemma NestedObjectExample()
    ensures Convert(JSObject([
              (PyStr("a"), Prim(PyInt(1))),
              (PyStr("b"), JSArray([Prim(PyInt(1)), Prim(PyInt(2)), Prim(PyInt(3))])),
              (PyStr("c"), JSObject([
                 (PyStr("str"), Prim(PyStr("goofy"))),
                 (PyStr("obj"), JSObject([(PyStr("name"), Prim(PyStr("john doe")))]))])),
              (PyStr("d"), Prim(PyBool(true))),
              (PyStr("e"), Prim(PyNone))]))
         == Dict(map[
              PyStr("a") := Prim(PyInt(1)),
              PyStr("b") := List([Prim(PyInt(1)), Prim(PyInt(2)), Prim(PyInt(3))]),
              PyStr("c") := Dict(map[
                 PyStr("str") := Prim(PyStr("goofy")),
                 PyStr("obj") := Dict(map[PyStr("name") := Prim(PyStr("john doe"))])]),
              PyStr("d") := Prim(PyBool(true)),
              PyStr("e") := Prim(PyNone)])
  {
    var c := [
      (PyStr("str"), Prim(PyStr("goofy"))),
      (PyStr("obj"), JSObject([(PyStr("name"), Prim(PyStr("john doe")))]))];
    var cDict := Dict(map[
      PyStr("str") := Prim(PyStr("goofy")),
      PyStr("obj") := Dict(map[PyStr("name") := Prim(PyStr("john doe"))])]);
    InnerObjectExample();
    assert Convert(JSObject(c)) == cDict;
    var arr := [Prim(PyInt(1)), Prim(PyInt(2)), Prim(PyInt(3))];
    assert Convert(JSArray(arr)) == List(arr);
    var outer := [
      (PyStr("a"), Prim(PyInt(1))),
      (PyStr("b"), JSArray(arr)),
      (PyStr("c"), JSObject(c)),
      (PyStr("d"), Prim(PyBool(true))),
      (PyStr("e"), Prim(PyNone))];
    var pairs := [
      (PyStr("a"), Prim(PyInt(1))),
      (PyStr("b"), List(arr)),
      (PyStr("c"), cDict),
      (PyStr("d"), Prim(PyBool(true))),
      (PyStr("e"), Prim(PyNone))];
    assert MemberPairs(outer) == pairs;
    assert DictOf(pairs[..1]) == map[pairs[0].0 := pairs[0].1] by {
      assert pairs[..1][..0] == [];
    }
    assert DictOf(pairs[..2]) == DictOf(pairs[..1])[pairs[1].0 := pairs[1].1] by {
      assert pairs[..2][..1] == pairs[..1];
    }
    assert DictOf(pairs[..3]) == DictOf(pairs[..2])[pairs[2].0 := pairs[2].1] by {
      assert pairs[..3][..2] == pairs[..2];
    }
    assert DictOf(pairs[..4]) == DictOf(pairs[..3])[pairs[3].0 := pairs[3].1] by {
      assert pairs[..4][..3] == pairs[..3];
    }
    assert DictOf(pairs) == DictOf(pairs[..4])[pairs[4].0 := pairs[4].1];
  }

  /** The nested array of the wrapper tests converts to nested lists. */
  lemma NestedArrayExample()
    ensures Convert(JSArray([JSArray([Prim(PyInt(1)), Prim(PyStr("abla"))]),
                             JSArray([Prim(PyInt(2)), Prim(PyStr("ajkss"))])]))
         == List([List([Prim(PyInt(1)), Prim(PyStr("abla"))]),
                  List([Prim(PyInt(2)), Prim(PyStr("ajkss"))])])
  {
    assert Convert(JSArray([Prim(PyInt(1)), Prim(PyStr("abla"))])) == List([Prim(PyInt(1)), Prim(PyStr("abla"))]);
    assert Convert(JSArray([Prim(PyInt(2)), Prim(PyStr("ajkss"))])) == List([Prim(PyInt(2)), Prim(PyStr("ajkss"))]);
  }
}
