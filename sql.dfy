/** Positional SQL statements: a text whose `?` markers are bound, in order,
    to a list of parameter values (JDBC's `PreparedStatement.setObject(i + 1, params.get(i))`). */
module Sql {

  /** Java's `int`. */
  newtype int32 = x: int | -0x8000_0000 <= x < 0x8000_0000

  /** A value bound to one `?` marker. */
  datatype Param =
    | TimestampParam(millis: int)   // java.sql.Timestamp built from Date.getTime()
    | TextParam(text: string)       // a java.lang.String selection value
    | IntParam(value: int32)        // a boxed java.lang.Integer

  /** The three arguments of `performSearch`: the SQL text, the positional
      parameters, and whether it is run as a prepared statement. */
  datatype Statement = Statement(sql: string, params: seq<Param>, prepared: bool)

  /** Number of `?` markers in a SQL text. */
  function Markers(s: string): nat
  {
    MarkersBefore(s, |s|)
  }

  /** Number of `?` markers among the first `n` characters of `s`. */
  function MarkersBefore(s: string, n: nat): (k: nat)
    requires n <= |s|
    ensures k <= n
  {
    if n == 0 then 0 else MarkersBefore(s, n - 1) + (if s[n - 1] == '?' then 1 else 0)
  }

  /** A text without `?` has no markers. */
  lemma {:induction false} NoMarkers(s: string, n: nat)
    requires n <= |s| && '?' !in s
    ensures MarkersBefore(s, n) == 0
  {
    if n > 0 {
      assert s[n - 1] in s;
      NoMarkers(s, n - 1);
    }
  }

  lemma {:induction false} MarkersBeforeConcat(a: string, b: string, n: nat)
    requires n <= |b|
    ensures MarkersBefore(a + b, |a| + n) == Markers(a) + MarkersBefore(b, n)
  {
    if n == 0 {
      MarkersBeforePrefix(a, a + b, |a|);
    } else {
      MarkersBeforeConcat(a, b, n - 1);
    }
  }

  /** Counting a prefix does not look past it. */
  lemma {:induction false} MarkersBeforePrefix(a: string, s: string, n: nat)
    requires n <= |a| <= |s| && a == s[..|a|]
    ensures MarkersBefore(s, n) == MarkersBefore(a, n)
  {
    if n > 0 {
      assert s[n - 1] == a[n - 1];
      MarkersBeforePrefix(a, s, n - 1);
    }
  }

  /** Markers add up over concatenated text. */
  lemma MarkersConcat(a: string, b: string)
    ensures Markers(a + b) == Markers(a) + Markers(b)
  {
    assert (a + b)[..|a|] == a;
    MarkersBeforeConcat(a, b, |b|);
  }

  /** A text without `?` has no markers. */
  lemma MarkerFree(s: string)
    requires '?' !in s
    ensures Markers(s) == 0
  {
    NoMarkers(s, |s|);
  }

  lemma OneMarker()
    ensures Markers("?") == 1
  {
    assert MarkersBefore("?", 1) == MarkersBefore("?", 0) + 1;
  }

  /** A statement can be bound positionally: one parameter per marker, and an
      unprepared statement (run through `Statement.executeQuery`) has none. */
  predicate WellBound(st: Statement)
  {
    Markers(st.sql) == |st.params| && (!st.prepared ==> st.params == [])
  }

  /** `Collections.nCopies(n, x)`. */
  function NCopies<T>(n: nat, x: T): (r: seq<T>)
    ensures |r| == n
    ensures forall i :: 0 <= i < n ==> r[i] == x
  {
    if n == 0 then [] else [x] + NCopies(n - 1, x)
  }

  /** `String.join(sep, parts)`: the parts with `sep` between neighbours. */
  function Join(sep: string, parts: seq<string>): string
  {
    if |parts| == 0 then ""
    else if |parts| == 1 then parts[0]
    else parts[0] + sep + Join(sep, parts[1..])
  }

  /** The `?,?,…,?` list that `applyMultiFilter` puts inside `IN (…)`. */
  function MarkerList(n: nat): string
  {
    Join(",", NCopies(n, "?"))
  }

  /** The marker list for `n` values holds exactly `n` markers: `?` at every
      even position and `,` at every odd one, and nothing else. */
  lemma {:induction false} MarkerListShape(n: nat)
    ensures Markers(MarkerList(n)) == n
    ensures n == 0 ==> MarkerList(n) == ""
    ensures n > 0 ==> |MarkerList(n)| == 2 * n - 1
    ensures forall i :: 0 <= i < |MarkerList(n)| ==>
              MarkerList(n)[i] == if i % 2 == 0 then '?' else ','
  {
    if n == 1 {
      assert MarkerList(1) == "?";
    } else if n > 1 {
      MarkerListShape(n - 1);
      var copies := NCopies(n, "?");
      assert copies[1..] == NCopies(n - 1, "?");
      var rest := MarkerList(n - 1);
      assert MarkerList(n) == "?" + "," + rest;
      MarkersConcat("?" + ",", rest);
      OneMarker();
      MarkerFree(",");
      MarkersConcat("?", ",");
      var r := MarkerList(n);
      forall i | 0 <= i < |r|
        ensures r[i] == if i % 2 == 0 then '?' else ','
      {
        if i >= 2 {
          assert r[i] == rest[i - 2];
        }
      }
    }
  }
}
