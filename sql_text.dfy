/** A parameterized SQL statement as the handlers build it: literal text
    interleaved with positional placeholders `$n`, plus the parameter list
    the placeholders refer to. */
module SqlText {
  import opened Decimal

  /** A fragment of statement text: literal SQL, or the placeholder `$index`. */
  datatype Piece = Text(text: string) | Param(index: nat)

  /** A bound parameter: a string, or SQL NULL. */
  datatype Value = Str(s: string) | Null

  /** A statement together with its positional parameters. */
  datatype Query = Query(text: seq<Piece>, params: seq<Value>)

  function RenderPiece(p: Piece): string
  {
    match p
    case Text(t) => t
    case Param(n) => "$" + Digits(n)
  }

  /** The SQL string sent to the database. */
  function Render(q: seq<Piece>): string
  {
    if q == [] then "" else RenderPiece(q[0]) + Render(q[1..])
  }

  /** The placeholder numbers of a statement, in order of appearance. */
  function Placeholders(q: seq<Piece>): (ns: seq<nat>)
    ensures |ns| <= |q|
  {
    if q == [] then []
    else (if q[0].Param? then [q[0].index] else []) + Placeholders(q[1..])
  }

  lemma {:induction false} RenderAppend(a: seq<Piece>, b: seq<Piece>)
    ensures Render(a + b) == Render(a) + Render(b)
  {
    if a != [] {
      assert (a + b)[1..] == a[1..] + b;
      RenderAppend(a[1..], b);
    } else {
      assert a + b == b;
    }
  }

  lemma {:induction false} PlaceholdersAppend(a: seq<Piece>, b: seq<Piece>)
    ensures Placeholders(a + b) == Placeholders(a) + Placeholders(b)
  {
    if a != [] {
      assert (a + b)[1..] == a[1..] + b;
      PlaceholdersAppend(a[1..], b);
    } else {
      assert a + b == b;
    }
  }

  /** Rendering and placeholders, one piece at a time from the front. */
  lemma RenderCons(p: Piece, rest: seq<Piece>)
    ensures Render([p] + rest) == RenderPiece(p) + Render(rest)
    ensures Placeholders([p] + rest) == (if p.Param? then [p.index] else []) + Placeholders(rest)
  {
    assert ([p] + rest)[1..] == rest;
  }

  lemma RenderedText(t: string)
    ensures Render([Text(t)]) == t && Placeholders([Text(t)]) == []
  {
    assert [Text(t)][1..] == [];
  }

  /** How the placeholders of the first few positions are spelled. */
  lemma RenderedParams()
    ensures RenderPiece(Param(1)) == "$1"
    ensures RenderPiece(Param(2)) == "$2"
    ensures RenderPiece(Param(3)) == "$3"
  {
    assert Digits(1) == "1" && Digits(2) == "2" && Digits(3) == "3";
  }

  /** The placeholders and the parameter list agree: every placeholder names
      an existing parameter (`$1` to `$|params|`), and every parameter is
      referred to by some placeholder. */
  ghost predicate Aligned(q: Query)
  {
    (forall n :: n in Placeholders(q.text) ==> 1 <= n <= |q.params|) &&
    (forall n :: 1 <= n <= |q.params| ==> n in Placeholders(q.text))
  }

  /** The highest number in a sequence, 0 for the empty sequence. */
  function MaxOf(ns: seq<nat>): (m: nat)
    ensures forall i :: 0 <= i < |ns| ==> ns[i] <= m
    ensures ns != [] ==> m in ns
    ensures ns == [] ==> m == 0
  {
    if ns == [] then 0
    else
      var rest := MaxOf(ns[1..]);
      if ns[0] >= rest then ns[0] else rest
  }

  /** In an aligned statement the highest placeholder is the number of
      parameters. */
  lemma AlignedMax(q: Query)
    requires Aligned(q)
    ensures MaxOf(Placeholders(q.text)) == |q.params|
  {
    var ps := Placeholders(q.text);
    if |q.params| > 0 {
      assert |q.params| in ps;
    }
  }
}
