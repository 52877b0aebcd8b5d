/** SqlHelper.CreateInClause: the placeholders and parameters of an SQL
    `IN (...)` clause. Parameter `i` is named `@<prefix><i>`; the placeholder
    string lists the names in index order separated by ", "; an empty list of
    values gives the always-false clause `IN (NULL)`. */
module SqlHelper {
  import opened Records
  import opened Seqs

  /** A database parameter: its name and its value. */
  datatype SqlParameter<T> = SqlParameter(name: string, value: T)

  /** The exceptions the guards throw, with the offending argument's name. */
  datatype ArgumentError = ArgumentException(paramName: string) | ArgumentNullException(paramName: string)

  /** The placeholder text and the parameters, in index order. */
  datatype InClause<P> = InClause(placeholders: string, parameters: seq<P>)

  /** char.IsWhiteSpace: the Unicode separators (Zs, Zl, Zp), the controls
      U+0009..U+000D and U+0085. */
  predicate IsWhiteSpace(c: char)
  {
    || c == ' ' || ('\t' <= c <= '\r') || c == '\U{85}' || c == '\U{A0}' || c == '\U{1680}'
    || ('\U{2000}' <= c <= '\U{200A}') || c == '\U{2028}' || c == '\U{2029}'
    || c == '\U{202F}' || c == '\U{205F}' || c == '\U{3000}'
  }

  /** string.IsNullOrWhiteSpace. */
  predicate IsNullOrWhiteSpace(s: Option<string>)
  {
    s.None? || forall k :: 0 <= k < |s.value| ==> IsWhiteSpace(s.value[k])
  }

  /** The values as a list: empty when none are given. */
  function ValueList<T>(values: Option<seq<T>>): seq<T>
  {
    if values.None? then [] else values.value
  }

  /** The name of parameter `i`: "@" + prefix + i in decimal. */
  function ParamName(prefix: string, i: nat): (r: string)
    ensures |r| > |prefix| + 1 && r[0] == '@' && r[1..|prefix| + 1] == prefix
  {
    "@" + prefix + NatToString(i)
  }

  /** The names of parameters 0 .. n-1. */
  function ParamNames(prefix: string, n: nat): (r: seq<string>)
    ensures |r| == n
    decreases n
  {
    if n == 0 then [] else ParamNames(prefix, n - 1) + [ParamName(prefix, n - 1)]
  }

  lemma {:induction false} ParamNamesAt(prefix: string, n: nat, i: nat)
    requires i < n
    ensures ParamNames(prefix, n)[i] == ParamName(prefix, i)
    decreases n
  {
    if i < n - 1 {
      ParamNamesAt(prefix, n - 1, i);
    }
  }

  /** Parameters with different indices have different names. */
  lemma ParamNamesDistinct(prefix: string, i: nat, j: nat)
    requires ParamName(prefix, i) == ParamName(prefix, j)
    ensures i == j
  {
    var a, b := ParamName(prefix, i), ParamName(prefix, j);
    var k := |prefix| + 1;
    assert a[k..] == NatToString(i) && b[k..] == NatToString(j);
    NatToStringInjective(i, j);
  }

  /** CreateInClause(paramPrefix, values) with a SqliteParameter per value. */
  method CreateInClause<T>(paramPrefix: Option<string>, values: Option<seq<T>>)
    returns (r: Result<InClause<SqlParameter<T>>, ArgumentError>)
    ensures IsNullOrWhiteSpace(paramPrefix) <==> r == Failure(ArgumentException("paramPrefix"))
    ensures !IsNullOrWhiteSpace(paramPrefix) ==> r.Success?
    ensures r.Success? && ValueList(values) == [] ==> r.value == InClause("NULL", [])
    ensures r.Success? && ValueList(values) != [] ==>
      && |r.value.parameters| == |ValueList(values)|
      && (forall i :: 0 <= i < |r.value.parameters| ==>
            r.value.parameters[i] == SqlParameter(ParamName(paramPrefix.value, i), ValueList(values)[i]))
      && r.value.placeholders == Join(ParamNames(paramPrefix.value, |ValueList(values)|), ", ")
      && r.value.placeholders == Join(NamesOf(r.value.parameters), ", ")
  {
    if IsNullOrWhiteSpace(paramPrefix) {
      return Failure(ArgumentException("paramPrefix"));
    }
    var prefix := paramPrefix.value;
    var valueList := ValueList(values);
    if |valueList| == 0 {
      return Success(InClause("NULL", []));
    }
    var placeholders, parameters := FillParameters(prefix, valueList);
    return Success(InClause(Join(placeholders, ", "), parameters));
  }

  /** The loop of the first overload: name `i` and a parameter holding value
      `i` at every index `i`. */
  method FillParameters<T>(prefix: string, valueList: seq<T>) returns (names: seq<string>, ps: seq<SqlParameter<T>>)
    requires valueList != []
    ensures names == ParamNames(prefix, |valueList|)
    ensures |ps| == |valueList| && forall i :: 0 <= i < |ps| ==> ps[i] == SqlParameter(ParamName(prefix, i), valueList[i])
    ensures NamesOf(ps) == names
  {
    var parameters := new SqlParameter<T>[|valueList|](_ => SqlParameter("", valueList[0]));
    var placeholders := new string[|valueList|](_ => "");
    for i := 0 to |valueList|
      invariant placeholders[..i] == ParamNames(prefix, i)
      invariant forall k :: 0 <= k < i ==> parameters[k] == SqlParameter(placeholders[k], valueList[k])
    {
      var paramName := ParamName(prefix, i);
      placeholders[i] := paramName;
      parameters[i] := SqlParameter(paramName, valueList[i]);
    }
    assert placeholders[..] == placeholders[..|valueList|];
    names, ps := placeholders[..], parameters[..];
    forall k | 0 <= k < |ps| ensures ps[k] == SqlParameter(ParamName(prefix, k), valueList[k]) {
      ParamNamesAt(prefix, |valueList|, k);
    }
  }

  /** The names of the parameters, in order. */
  function NamesOf<T>(ps: seq<SqlParameter<T>>): (r: seq<string>)
    ensures |r| == |ps| && forall k :: 0 <= k < |ps| ==> r[k] == ps[k].name
  {
    seq(|ps|, k requires 0 <= k < |ps| => ps[k].name)
  }

  /** CreateInClause(paramPrefix, values, createParameter): the same clause,
      with the parameters built by the caller's factory. The prefix is
      checked before the factory. */
  method CreateInClauseWith<T, P>(paramPrefix: Option<string>, values: Option<seq<T>>,
                                  createParameter: Option<(string, T) -> P>)
    returns (r: Result<InClause<P>, ArgumentError>)
    ensures IsNullOrWhiteSpace(paramPrefix) <==> r == Failure(ArgumentException("paramPrefix"))
    ensures !IsNullOrWhiteSpace(paramPrefix) && createParameter.None? <==>
      r == Failure(ArgumentNullException("createParameter"))
    ensures !IsNullOrWhiteSpace(paramPrefix) && createParameter.Some? ==> r.Success?
    ensures r.Success? && ValueList(values) == [] ==> r.value == InClause("NULL", [])
    ensures r.Success? && ValueList(values) != [] ==>
      && |r.value.parameters| == |ValueList(values)|
      && (forall i :: 0 <= i < |r.value.parameters| ==>
            r.value.parameters[i] == createParameter.value(ParamName(paramPrefix.value, i), ValueList(values)[i]))
      && r.value.placeholders == Join(ParamNames(paramPrefix.value, |ValueList(values)|), ", ")
  {
    if IsNullOrWhiteSpace(paramPrefix) {
      return Failure(ArgumentException("paramPrefix"));
    }
    if createParameter.None? {
      return Failure(ArgumentNullException("createParameter"));
    }
    var prefix := paramPrefix.value;
    var create := createParameter.value;
    var valueList := ValueList(values);
    if |valueList| == 0 {
      return Success(InClause("NULL", []));
    }
    var placeholders, parameters := CreateParameters(prefix, valueList, create);
    return Success(InClause(Join(placeholders, ", "), parameters));
  }

  /** The loop of the second overload: name `i` and the factory's parameter
      for name `i` and value `i` at every index `i`. */
  method CreateParameters<T, P>(prefix: string, valueList: seq<T>, create: (string, T) -> P)
    returns (names: seq<string>, ps: seq<P>)
    ensures names == ParamNames(prefix, |valueList|)
    ensures |ps| == |valueList| && forall i :: 0 <= i < |ps| ==> ps[i] == create(ParamName(prefix, i), valueList[i])
  {
    names, ps := [], [];
    for i := 0 to |valueList|
      invariant names == ParamNames(prefix, i)
      invariant |ps| == i && forall k :: 0 <= k < i ==> ps[k] == create(ParamName(prefix, k), valueList[k])
    {
      var paramName := ParamName(prefix, i);
      names := names + [paramName];
      ps := ps + [create(paramName, valueList[i])];
    }
  }
}
