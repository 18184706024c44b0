/** An already-decoded JSON document, as Python's json module hands it over. */
module Json {

  /** JSON numbers decode to Python `int` or `float`; a float is kept as its literal text,
      since no arithmetic is done on it here. */
  datatype Json =
    | JNull
    | JBool(b: bool)
    | JInt(i: int)
    | JFloat(literal: string)
    | JStr(s: string)
    | JArr(items: seq<Json>)
    | JObj(fields: map<string, Json>)

  /** What `str(type(v))` prints for the Python value a JSON value decodes to. */
  function TypeRepr(v: Json): (r: string)
    ensures |r| > 10 && r[..8] == "<class '" && r[|r| - 2..] == "'>"
    ensures r[8..|r| - 2] == PythonTypeName(v)
  {
    var r := "<class '" + PythonTypeName(v) + "'>";
    assert r[8..|r| - 2] == PythonTypeName(v);
    r
  }

  /** The name of the Python type a JSON value decodes to; its first letter already tells
      the seven kinds apart. */
  function PythonTypeName(v: Json): (r: string)
    ensures |r| >= 3
    ensures v.JNull? <==> r[0] == 'N'
    ensures v.JBool? <==> r[0] == 'b'
    ensures v.JInt? <==> r[0] == 'i'
    ensures v.JFloat? <==> r[0] == 'f'
    ensures v.JStr? <==> r[0] == 's'
    ensures v.JArr? <==> r[0] == 'l'
    ensures v.JObj? <==> r[0] == 'd'
  {
    match v
    case JNull => "NoneType"
    case JBool(_) => "bool"
    case JInt(_) => "int"
    case JFloat(_) => "float"
    case JStr(_) => "str"
    case JArr(_) => "list"
    case JObj(_) => "dict"
  }

  /** The two values decode to the same kind of Python value. */
  predicate SameKind(v: Json, w: Json)
  {
    && v.JNull? == w.JNull? && v.JBool? == w.JBool? && v.JInt? == w.JInt?
    && v.JFloat? == w.JFloat? && v.JStr? == w.JStr? && v.JArr? == w.JArr? && v.JObj? == w.JObj?
  }

  /** The printed type tells the kinds of JSON value apart: two values print the same
      type exactly when they are of the same kind. */
  lemma TypeReprNamesKind(v: Json, w: Json)
    ensures TypeRepr(v) == TypeRepr(w) <==> SameKind(v, w)
  {
    var rv, rw := TypeRepr(v), TypeRepr(w);
    assert rv == rw ==> rv[8] == rw[8];
    assert rv[8] == rv[8..|rv| - 2][0] == PythonTypeName(v)[0];
    assert rw[8] == rw[8..|rw| - 2][0] == PythonTypeName(w)[0];
  }
}
