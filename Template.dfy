// Prompt templates as pre-parsed text: literal runs and named slots, filled the way
// `str.format` fills keyword arguments.

module Template {
  import opened Wrappers
  import opened Text

  /** One piece of a parsed template: literal text, or a `{name}` slot. */
  datatype Piece = Lit(text: string) | Slot(name: string)

  type Template = seq<Piece>

  /** `str.format` raises `KeyError(name)` for a slot it has no value for. */
  datatype FormatError = KeyError(key: string)

  /** Every slot of the template has a value. */
  predicate Fillable(t: Template, values: map<string, string>)
  {
    forall i :: 0 <= i < |t| && t[i].Slot? ==> t[i].name in values
  }

  /** Piece `i` is the leftmost slot without a value. */
  predicate FirstUnknown(t: Template, values: map<string, string>, i: int)
  {
    && 0 <= i < |t|
    && t[i].Slot? && t[i].name !in values
    && forall j :: 0 <= j < i && t[j].Slot? ==> t[j].name in values
  }

  /** The text one piece contributes, or the error it raises. */
  function Fill(p: Piece, values: map<string, string>): (r: Result<string, FormatError>)
    ensures r.Failure? <==> p.Slot? && p.name !in values
    ensures r.Failure? ==> r.error == KeyError(p.name)
    ensures r.Success? && p.Lit? ==> r.value == p.text
    ensures r.Success? && p.Slot? ==> r.value == values[p.name]
  {
    match p
    case Lit(text) => Success(text)
    case Slot(name) => if name in values then Success(values[name]) else Failure(KeyError(name))
  }

  /**
    `template.format(**values)`: the pieces filled left to right; the first slot without a
    value stops the substitution with a `KeyError` naming it.
   */
  function Format(t: Template, values: map<string, string>): (r: Result<string, FormatError>)
    ensures r.Success? <==> Fillable(t, values)
    ensures r.Failure? ==> exists i :: FirstUnknown(t, values, i) && r.error == KeyError(t[i].name)
    decreases |t|
  {
    if t == [] then Success("")
    else
      match Fill(t[0], values)
      case Failure(e) =>
        assert FirstUnknown(t, values, 0);
        Failure(e)
      case Success(head) =>
        match Format(t[1..], values)
        case Failure(e) =>
          assert exists i :: FirstUnknown(t, values, i) && e == KeyError(t[i].name) by {
            var i :| FirstUnknown(t[1..], values, i) && e == KeyError(t[1..][i].name);
            assert FirstUnknown(t, values, i + 1);
          }
          Failure(e)
        case Success(rest) =>
          assert Fillable(t, values) by {
            forall i | 0 <= i < |t| && t[i].Slot?
              ensures t[i].name in values
            {
              if i > 0 {
                assert t[i] == t[1..][i - 1];
              }
            }
          }
          Success(head + rest)
  }
  /** The text a piece stands for once filled (a slot without a value stands for nothing). */
  function Shown(p: Piece, values: map<string, string>): string
  {
    match p
    case Lit(text) => text
    case Slot(name) => if name in values then values[name] else ""
  }

  /** Filling a concatenation of templates fills each part and concatenates the results. */
  lemma {:induction false} FormatAppend(t1: Template, t2: Template, values: map<string, string>)
    ensures Fillable(t1 + t2, values) <==> Fillable(t1, values) && Fillable(t2, values)
    ensures Fillable(t1 + t2, values) ==>
      Format(t1 + t2, values).value == Format(t1, values).value + Format(t2, values).value
    decreases |t1|
  {
    if t1 == [] {
      assert t1 + t2 == t2;
    } else {
      assert (t1 + t2)[0] == t1[0];
      assert (t1 + t2)[1..] == t1[1..] + t2;
      FormatAppend(t1[1..], t2, values);
    }
  }

  /** A one-piece template stands for that piece's text. */
  lemma FormatOne(p: Piece, values: map<string, string>)
    requires p.Lit? || p.name in values
    ensures Format([p], values) == Success(Shown(p, values))
  {
    assert [p][1..] == [];
    assert Format([], values) == Success("");
    assert Fill(p, values) == Success(Shown(p, values));
    assert Shown(p, values) + "" == Shown(p, values);
  }

  /** Once every slot has a value, the output is the text before piece `i`, that piece's text, and the text after. */
  lemma FormatSplit(t: Template, values: map<string, string>, i: nat)
    requires Fillable(t, values) && i < |t|
    ensures Fillable(t[..i], values) && Fillable(t[i + 1..], values)
    ensures Format(t, values).value ==
      Format(t[..i], values).value + Shown(t[i], values) + Format(t[i + 1..], values).value
  {
    var pre, piece, post := t[..i], [t[i]], t[i + 1..];
    assert t == pre + piece + post;
    FormatAppend(pre + piece, post, values);
    FormatAppend(pre, piece, values);
    FormatOne(t[i], values);
  }

  /** Once every slot has a value, each literal and each slot's value shows in the output. */
  lemma FormatShows(t: Template, values: map<string, string>, i: nat)
    requires Fillable(t, values) && i < |t|
    ensures Contains(Format(t, values).value, Shown(t[i], values))
  {
    FormatSplit(t, values, i);
    ContainsMiddle(Format(t[..i], values).value, Shown(t[i], values), Format(t[i + 1..], values).value);
  }

  /** Only the values of the template's own slots matter. */
  lemma {:induction false} FormatLocal(t: Template, v1: map<string, string>, v2: map<string, string>)
    requires forall i :: 0 <= i < |t| && t[i].Slot? ==>
      (t[i].name in v1 <==> t[i].name in v2) && (t[i].name in v1 ==> v1[t[i].name] == v2[t[i].name])
    ensures Format(t, v1) == Format(t, v2)
    decreases |t|
  {
    if t != [] {
      assert Fill(t[0], v1) == Fill(t[0], v2);
      forall i | 0 <= i < |t[1..]| && t[1..][i].Slot?
        ensures (t[1..][i].name in v1 <==> t[1..][i].name in v2)
      {
        assert t[1..][i] == t[i + 1];
      }
      FormatLocal(t[1..], v1, v2);
    }
  }
}
