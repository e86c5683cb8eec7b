/** Values shared by the telemetry console's pages: the optional wrapper that
    stands for JavaScript's null/undefined, the reading and hardware records
    the backend sends, the {success, data} response envelope, and the few
    string operations the pages apply to those records. */
module Common {

  /** `None` is a JavaScript `null` or `undefined`. */
  datatype Option<+T> = None | Some(value: T) {
    function GetOr(default: T): T {
      if Some? then value else default
    }
  }

  /** One telemetry reading, as pushed on `new_sensor_reading` or listed by
      the history endpoint. Every field but the timestamp may be absent. */
  datatype Reading = Reading(
    timestamp: string,
    ph: Option<real>,
    temperature: Option<real>,
    turbidity: Option<real>,
    pumpState: Option<string>)

  /** One hardware asset of the registry (a sensor or an actuator). `kind` is
      the record's `type` field, which only sensors carry. */
  datatype Asset = Asset(
    name: string,
    kind: Option<string>,
    functionality: string,
    status: Option<string>)

  /** The `{ success, data }` body every endpoint answers with. */
  datatype Response<T> = Response(success: bool, data: T)

  /** JavaScript truthiness of an optional number: absent and 0 are falsy. */
  predicate Truthy(x: Option<real>) {
    x.Some? && x.value != 0.0
  }

  /** JavaScript truthiness of an optional string: absent and "" are falsy. */
  predicate TruthyString(x: Option<string>) {
    x.Some? && x.value != ""
  }

  function UpperChar(c: char): char {
    if 'a' <= c <= 'z' then (c as int - 32) as char else c
  }

  function LowerChar(c: char): char {
    if 'A' <= c <= 'Z' then (c as int + 32) as char else c
  }

  /** `String.prototype.toUpperCase` on the ASCII letters. */
  function Upper(s: string): (r: string)
    ensures |r| == |s|
    ensures forall i :: 0 <= i < |s| ==> r[i] == UpperChar(s[i])
    ensures forall i :: 0 <= i < |r| ==> !('a' <= r[i] <= 'z')
  {
    if s == [] then [] else [UpperChar(s[0])] + Upper(s[1..])
  }

  /** `String.prototype.toLowerCase` on the ASCII letters. */
  function Lower(s: string): (r: string)
    ensures |r| == |s|
    ensures forall i :: 0 <= i < |s| ==> r[i] == LowerChar(s[i])
    ensures forall i :: 0 <= i < |r| ==> !('A' <= r[i] <= 'Z')
  {
    if s == [] then [] else [LowerChar(s[0])] + Lower(s[1..])
  }

  /** A string without upper-case ASCII letters is its own lower-casing. */
  lemma LowerOfLowerCase(s: string)
    requires forall i :: 0 <= i < |s| ==> !('A' <= s[i] <= 'Z')
    ensures Lower(s) == s
  {
    assert forall i :: 0 <= i < |s| ==> Lower(s)[i] == s[i];
  }

  /** Upper-casing twice is upper-casing once. */
  lemma UpperIdempotent(s: string)
    ensures Upper(Upper(s)) == Upper(s)
  {
    var u := Upper(s);
    assert forall i :: 0 <= i < |u| ==> UpperChar(u[i]) == u[i];
  }

  /** Lower-casing twice is lower-casing once. */
  lemma LowerIdempotent(s: string)
    ensures Lower(Lower(s)) == Lower(s)
  {
    var l := Lower(s);
    assert forall i :: 0 <= i < |l| ==> LowerChar(l[i]) == l[i];
  }

  /** Lower-casing forgets how the input was cased: two strings that upper-case
      alike lower-case alike. */
  lemma LowerIgnoresCase(s: string)
    ensures Lower(Upper(s)) == Lower(s)
  {
    var a, b := Lower(Upper(s)), Lower(s);
    assert forall i :: 0 <= i < |s| ==> a[i] == b[i];
  }

  /** Upper-casing forgets how the input was cased, too. */
  lemma UpperIgnoresCase(s: string)
    ensures Upper(Lower(s)) == Upper(s)
  {
    var a, b := Upper(Lower(s)), Upper(s);
    assert forall i :: 0 <= i < |s| ==> a[i] == b[i];
  }

  /** The index of the first `c` in `s`, or `|s|` when there is none: the
      position `String.prototype.indexOf` reports, with "not found" as `|s|`. */
  function IndexOf(s: string, c: char): (i: nat)
    ensures i <= |s|
    ensures c !in s[..i]
    ensures i < |s| <==> c in s
    ensures i < |s| ==> s[i] == c
  {
    if s == [] then 0
    else if s[0] == c then 0
    else
      assert s[..1 + IndexOf(s[1..], c)] == [s[0]] + s[1..][..IndexOf(s[1..], c)];
      1 + IndexOf(s[1..], c)
  }

  /** Concatenation regrouped to the left. */
  lemma Regroup<T>(a: seq<T>, b: seq<T>, c: seq<T>)
    ensures a + (b + c) == a + b + c
  {
  }

  /** Dropping the head before or after appending is the same. */
  lemma DropHeadConcat<T>(a: seq<T>, b: seq<T>)
    requires a != []
    ensures a[1..] + b == (a + b)[1..]
  {
  }

  /** Dropping `i` and then `j` elements is dropping `i + j`. */
  lemma DropDrop<T>(s: seq<T>, i: nat, j: nat)
    requires i + j <= |s|
    ensures s[i..][j..] == s[i + j..]
  {
  }

  /** Searching past a prefix that does not hold `c`. */
  lemma {:induction false} IndexOfAfter(a: string, b: string, c: char)
    requires c !in a
    ensures IndexOf(a + b, c) == |a| + IndexOf(b, c)
  {
    if a == [] {
      assert a + b == b;
    } else {
      assert (a + b)[0] == a[0] != c;
      assert (a + b)[1..] == a[1..] + b;
      IndexOfAfter(a[1..], b, c);
    }
  }

  /** `${API_URL}/api/reports/stats?period=${period}`, the statistics request
      both the dashboard and the reports page send (no encoding is applied). */
  function StatsPeriodUrl(apiUrl: string, period: string): (url: string)
    ensures |url| == |apiUrl| + |"/api/reports/stats?period="| + |period|
    ensures url[..|apiUrl|] == apiUrl
    ensures url[|url| - |period|..] == period
  {
    apiUrl + "/api/reports/stats?period=" + period
  }
}
