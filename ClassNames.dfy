/** The `cn` class-name helper: `inputs.filter(Boolean).join(" ")`.
    Its arguments are strings, `undefined`, `null` or booleans; the falsy ones
    (the empty string, `undefined`, `null`, `false`) are dropped and the rest
    are joined with single spaces, in their original order. */
module ClassNames {

  /** One argument of `cn`. */
  datatype ClassArg = Str(s: string) | Undefined | Null | Bool(b: bool)

  /** JavaScript truthiness of an argument, as `Boolean(x)` decides it. */
  predicate Truthy(a: ClassArg) {
    match a
    case Str(s) => s != ""
    case Bool(b) => b
    case Undefined => false
    case Null => false
  }

  /** How `join` renders an argument that survived the filter:
      a string as itself and `true` as the text "true". */
  function Text(a: ClassArg): (t: string)
    requires Truthy(a)
    ensures t != ""
  {
    if a.Str? then a.s else "true"
  }

  /** The pieces `cn` joins: the rendered truthy arguments, in order. */
  function Words(xs: seq<ClassArg>): (ws: seq<string>)
    ensures |ws| <= |xs|
    ensures forall i :: 0 <= i < |ws| ==> ws[i] != ""
    ensures ws == [] <==> forall i :: 0 <= i < |xs| ==> !Truthy(xs[i])
  {
    if xs == [] then []
    else if Truthy(xs[0]) then [Text(xs[0])] + Words(xs[1..])
    else
      var rest := Words(xs[1..]);
      assert forall i :: 1 <= i < |xs| ==> xs[i] == xs[1..][i - 1];
      rest
  }

  /** `Array.prototype.join(" ")` on strings. */
  function JoinSpaces(ws: seq<string>): (r: string)
    ensures (forall i :: 0 <= i < |ws| ==> ws[i] != "") ==> (r == "" <==> ws == [])
  {
    if ws == [] then ""
    else if |ws| == 1 then ws[0]
    else ws[0] + " " + JoinSpaces(ws[1..])
  }

  /** `cn(...inputs)`; the result is empty exactly when no argument is truthy. */
  function Cn(xs: seq<ClassArg>): (r: string)
    ensures r == "" <==> forall i :: 0 <= i < |xs| ==> !Truthy(xs[i])
  {
    JoinSpaces(Words(xs))
  }

  /** Filtering distributes over concatenation: `cn` keeps each argument on
      its own merit, so the kept pieces of `xs + ys` are those of `xs`
      followed by those of `ys`. */
  lemma {:induction false} WordsAppend(xs: seq<ClassArg>, ys: seq<ClassArg>)
    ensures Words(xs + ys) == Words(xs) + Words(ys)
  {
    if xs == [] {
      assert xs + ys == ys;
    } else {
      assert (xs + ys)[0] == xs[0];
      assert (xs + ys)[1..] == xs[1..] + ys;
      WordsAppend(xs[1..], ys);
    }
  }

  /** A single argument is kept, rendered, exactly when it is truthy. */
  lemma WordsSingle(a: ClassArg)
    ensures Words([a]) == if Truthy(a) then [Text(a)] else []
  {
    assert [a][1..] == [];
  }

  /** Splits a string at every space. The empty string has no fields, so
      that `Split` undoes `JoinSpaces` on lists of non-empty words. */
  function Split(s: string): seq<string> {
    if s == "" then [] else Fields(s, "")
  }

  /** The fields of `s`, the first of them continuing `cur`. */
  function Fields(s: string, cur: string): seq<string>
    decreases |s|
  {
    if s == "" then [cur]
    else if s[0] == ' ' then [cur] + Fields(s[1..], "")
    else Fields(s[1..], cur + [s[0]])
  }

  lemma {:induction false} FieldsOfWord(w: string, rest: string, cur: string)
    requires ' ' !in w
    ensures Fields(w + rest, cur) == Fields(rest, cur + w)
  {
    if w == [] {
      assert w + rest == rest;
      assert cur + w == cur;
    } else {
      assert (w + rest)[0] == w[0];
      assert (w + rest)[1..] == w[1..] + rest;
      assert ' ' !in w[1..];
      FieldsOfWord(w[1..], rest, cur + [w[0]]);
      assert cur + [w[0]] + w[1..] == cur + w;
    }
  }

  /** The fields of each piece in turn: what splitting the joined pieces at
      spaces yields when pieces may themselves hold spaces. */
  function FieldsAll(ws: seq<string>): seq<string> {
    if ws == [] then [] else Fields(ws[0], "") + FieldsAll(ws[1..])
  }

  /** A space ends the current field: the fields of `w + " " + rest` are
      those of `w` followed by those of `rest`. */
  lemma {:induction false} FieldsAtSpace(w: string, rest: string, cur: string)
    ensures Fields(w + " " + rest, cur) == Fields(w, cur) + Fields(rest, "")
  {
    if w == [] {
      assert w + " " + rest == " " + rest;
      assert (" " + rest)[1..] == rest;
    } else {
      assert (w + " " + rest)[0] == w[0];
      assert (w + " " + rest)[1..] == w[1..] + " " + rest;
      if w[0] == ' ' {
        FieldsAtSpace(w[1..], rest, "");
      } else {
        FieldsAtSpace(w[1..], rest, cur + [w[0]]);
      }
    }
  }

  /** Joining non-empty pieces and splitting the result at spaces yields
      the fields of every piece, piece after piece. */
  lemma {:induction false} SplitJoinAll(ws: seq<string>)
    requires forall i :: 0 <= i < |ws| ==> ws[i] != ""
    ensures Split(JoinSpaces(ws)) == FieldsAll(ws)
  {
    if ws == [] {
    } else if |ws| == 1 {
      assert ws[1..] == [];
    } else {
      var rest := JoinSpaces(ws[1..]);
      SplitJoinAll(ws[1..]);
      assert rest != "";
      FieldsAtSpace(ws[0], rest, "");
    }
  }

  /** A word with no space is a single field. */
  lemma FieldsAllOfWords(ws: seq<string>)
    requires forall i :: 0 <= i < |ws| ==> ' ' !in ws[i]
    ensures FieldsAll(ws) == ws
  {
    if ws != [] {
      FieldsOfWord(ws[0], "", "");
      assert ws[0] + "" == ws[0];
      assert "" + ws[0] == ws[0];
      FieldsAllOfWords(ws[1..]);
    }
  }

  /** Joining non-empty words that contain no space and splitting the result
      at spaces gives the words back. */
  lemma SplitJoin(ws: seq<string>)
    requires forall i :: 0 <= i < |ws| ==> ws[i] != "" && ' ' !in ws[i]
    ensures Split(JoinSpaces(ws)) == ws
  {
    SplitJoinAll(ws);
    FieldsAllOfWords(ws);
  }

  /** For every argument list: splitting the output of `cn` at spaces yields
      the space-separated fields of the truthy arguments, argument after
      argument, in their original order. */
  lemma CnSplit(xs: seq<ClassArg>)
    ensures Split(Cn(xs)) == FieldsAll(Words(xs))
  {
    SplitJoinAll(Words(xs));
  }

  /** Round trip: when no kept piece holds a space, splitting the output of
      `cn` at spaces yields exactly the truthy arguments, in order. */
  lemma CnRoundTrip(xs: seq<ClassArg>)
    requires forall i :: 0 <= i < |Words(xs)| ==> ' ' !in Words(xs)[i]
    ensures Split(Cn(xs)) == Words(xs)
  {
    CnSplit(xs);
    FieldsAllOfWords(Words(xs));
  }
}
