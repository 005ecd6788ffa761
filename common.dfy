/** Small shared vocabulary: optional values, the outcome of a script step, the JSON
    values the preference store holds, and predicates on strings. */
module Common {

  /** A value that may be absent (JavaScript `undefined` / a missing DOM node). */
  datatype Option<+T> = None | Some(value: T)

  /** How a sequence of script statements ended: it ran to the end, or a
      `TypeError` was thrown part-way (for instance `null.replace(...)`). */
  datatype Outcome = Completed | TypeError

  /** The JSON values the preference store reads and writes. */
  datatype Value = Null | Bool(b: bool) | Str(s: string)

  /** JavaScript truthiness of a JSON value: `null`, `false` and `""` are falsy. */
  predicate Truthy(v: Value)
  {
    match v
    case Null => false
    case Bool(b) => b
    case Str(s) => s != ""
  }

  /** `s.startsWith(p)`. */
  predicate StartsWith(s: string, p: string)
  {
    |p| <= |s| && s[..|p|] == p
  }

  /** `s.endsWith(p)`. */
  predicate EndsWith(s: string, p: string)
  {
    |p| <= |s| && s[|s| - |p|..] == p
  }

  /** `t` occurs in `s` at position `k`. */
  predicate OccursAt(s: string, t: string, k: int)
  {
    0 <= k <= |s| - |t| && s[k..k + |t|] == t
  }

  /** `s.includes(t)`: `t` occurs somewhere in `s`. */
  predicate Contains(s: string, t: string)
  {
    exists k :: 0 <= k <= |s| - |t| && OccursAt(s, t, k)
  }

  lemma ContainsLeft(a: string, b: string, t: string)
    requires Contains(a, t)
    ensures Contains(a + b, t)
  {
    var k :| 0 <= k <= |a| - |t| && OccursAt(a, t, k);
    assert (a + b)[k..k + |t|] == a[k..k + |t|];
    assert OccursAt(a + b, t, k);
  }

  lemma ContainsRight(a: string, b: string, t: string)
    requires Contains(b, t)
    ensures Contains(a + b, t)
  {
    var k :| 0 <= k <= |b| - |t| && OccursAt(b, t, k);
    assert (a + b)[|a| + k..|a| + k + |t|] == b[k..k + |t|];
    assert OccursAt(a + b, t, |a| + k);
  }

  /** `n` space characters. */
  function Spaces(n: nat): (r: string)
    ensures |r| == n && forall i :: 0 <= i < n ==> r[i] == ' '
  {
    seq(n, _ => ' ')
  }

  /** One line of a template literal: a line break, `indent` spaces, then `text`. */
  function Line(indent: nat, text: string): string
  {
    "\n" + Spaces(indent) + text
  }

  /** The text of a template literal: its fixed pieces and interpolated values, in order. */
  function Concat(parts: seq<string>): string
  {
    if parts == [] then "" else parts[0] + Concat(parts[1..])
  }

  lemma {:induction false} ConcatAppend(a: seq<string>, b: seq<string>)
    ensures Concat(a + b) == Concat(a) + Concat(b)
  {
    if a == [] {
      assert a + b == b;
    } else {
      assert (a + b)[1..] == a[1..] + b;
      ConcatAppend(a[1..], b);
    }
  }

  /** Every piece of a template occurs, unchanged, in its text. */
  lemma {:induction false} ConcatContains(parts: seq<string>, j: nat)
    requires j < |parts|
    ensures Contains(Concat(parts), parts[j])
  {
    if j == 0 {
      assert OccursAt(Concat(parts), parts[0], 0);
    } else {
      ConcatContains(parts[1..], j - 1);
      ContainsRight(parts[0], Concat(parts[1..]), parts[j]);
    }
  }

  /** Appending one piece to a template appends its text. */
  lemma ConcatSnoc(parts: seq<string>, p: string)
    ensures Concat(parts + [p]) == Concat(parts) + p
  {
    ConcatAppend(parts, [p]);
    assert Concat([p]) == p + Concat([]);
  }

  /** The first `k` pieces of a template form a prefix of its text. */
  lemma ConcatPrefix(parts: seq<string>, k: nat)
    requires k <= |parts|
    ensures StartsWith(Concat(parts), Concat(parts[..k]))
    ensures Concat(parts) == Concat(parts[..k]) + Concat(parts[k..])
  {
    assert parts == parts[..k] + parts[k..];
    ConcatAppend(parts[..k], parts[k..]);
  }

  lemma ContainsTransitive(s: string, t: string, u: string)
    requires Contains(s, t) && Contains(t, u)
    ensures Contains(s, u)
  {
    var k :| 0 <= k <= |s| - |t| && OccursAt(s, t, k);
    var m :| 0 <= m <= |t| - |u| && OccursAt(t, u, m);
    forall i | 0 <= i < |u|
      ensures s[k + m + i] == u[i]
    {
      assert s[k + m + i] == s[k..k + |t|][m + i];
      assert t[m..m + |u|][i] == u[i];
    }
    assert s[k + m..k + m + |u|] == u;
    assert OccursAt(s, u, k + m);
  }

  /** Two adjacent pieces of a template occur together in its text. */
  lemma {:induction false} ConcatContainsPair(parts: seq<string>, j: nat)
    requires j + 1 < |parts|
    ensures Contains(Concat(parts), parts[j] + parts[j + 1])
  {
    if j == 0 {
      assert Concat(parts) == parts[0] + (parts[1] + Concat(parts[2..]));
      assert Concat(parts) == (parts[0] + parts[1]) + Concat(parts[2..]);
      assert OccursAt(Concat(parts), parts[0] + parts[1], 0);
    } else {
      ConcatContainsPair(parts[1..], j - 1);
      ContainsRight(parts[0], Concat(parts[1..]), parts[j] + parts[j + 1]);
    }
  }
}
