/**
  The eight configuration sections of the agent and their `__str__` renderings
  (src/francisco/agent_models.py). Each section is an immutable record of string
  lists. A section renders each non-empty list as a tagged sub-block of bullet lines;
  all but the personality section then wrap their sub-blocks in one outer tag.

  For every section that builds its output from several parts, `Render` follows the
  source step by step (a local `parts` list grown by conditional appends, then joined)
  and is proved equal to `Markup`, a declarative description of the same text. The
  lemmas state what the rendering promises in terms of `Markup`.
 */
module Sections {
  import opened Text

  // ---------------------------------------------------------------------------
  // Bullet blocks: one "- " line per non-empty entry, lines separated by newlines
  // ---------------------------------------------------------------------------

  /** Some entry passes Python's `if e` filter: only the empty string is dropped. */
  predicate HasContent(xs: seq<string>)
  {
    exists i :: 0 <= i < |xs| && xs[i] != ""
  }

  /** The bullet line of every non-empty entry, in order (defined from the last entry back). */
  function BulletLines(xs: seq<string>): seq<string>
  {
    if xs == [] then []
    else
      var last := xs[|xs| - 1];
      BulletLines(xs[..|xs| - 1]) + (if last != "" then ["- " + last] else [])
  }

  /** The bullet block of one list: its bullet lines joined by newlines. */
  function Bullets(xs: seq<string>): string
  {
    Join("\n", BulletLines(xs))
  }

  /** The positions of the non-empty entries of `xs`, in increasing order. */
  function Kept(xs: seq<string>): (ks: seq<nat>)
    ensures forall a, b :: 0 <= a < b < |ks| ==> ks[a] < ks[b]
    ensures forall a :: 0 <= a < |ks| ==> ks[a] < |xs| && xs[ks[a]] != ""
    ensures forall i :: 0 <= i < |xs| && xs[i] != "" ==> i in ks
  {
    if xs == [] then []
    else
      var n := |xs| - 1;
      assert forall i :: 0 <= i < n ==> xs[..n][i] == xs[i];
      Kept(xs[..n]) + (if xs[n] != "" then [n] else [])
  }

  /**
    The bullet lines are exactly the non-empty entries, in input order, each
    prefixed with "- ". Whitespace-only entries are not empty and are kept.
   */
  lemma {:induction false} BulletLinesKept(xs: seq<string>)
    ensures |BulletLines(xs)| == |Kept(xs)|
    ensures forall a :: 0 <= a < |Kept(xs)| ==> BulletLines(xs)[a] == "- " + xs[Kept(xs)[a]]
  {
    if xs != [] {
      var n := |xs| - 1;
      BulletLinesKept(xs[..n]);
      assert forall i :: 0 <= i < n ==> xs[..n][i] == xs[i];
    }
  }

  /** A bullet block is empty exactly when no entry of the list is non-empty. */
  lemma BulletsEmptyIff(xs: seq<string>)
    ensures Bullets(xs) == "" <==> !HasContent(xs)
  {
    BulletLinesKept(xs);
    var lines := BulletLines(xs);
    if Bullets(xs) != "" {
      assert |Kept(xs)| > 0;
      assert xs[Kept(xs)[0]] != "";
    }
    if HasContent(xs) {
      var i :| 0 <= i < |xs| && xs[i] != "";
      assert i in Kept(xs);
      assert |lines| > 0 && |lines[0]| >= 2;
      assert |Join("\n", lines)| >= |lines[0]|;
    }
  }

  /** Every non-empty entry appears in the bullet block as "- " followed by the entry. */
  lemma BulletsMention(xs: seq<string>, i: nat)
    requires i < |xs| && xs[i] != ""
    ensures Contains(Bullets(xs), "- " + xs[i])
  {
    BulletLinesKept(xs);
    var a :| 0 <= a < |Kept(xs)| && Kept(xs)[a] == i;
    JoinContains("\n", BulletLines(xs), a);
  }

  lemma {:induction false} BulletLinesAppend(xs: seq<string>, ys: seq<string>)
    ensures BulletLines(xs + ys) == BulletLines(xs) + BulletLines(ys)
  {
    if ys != [] {
      var n := |ys| - 1;
      var tail := if ys[n] != "" then ["- " + ys[n]] else [];
      assert (xs + ys)[..|xs + ys| - 1] == xs + ys[..n];
      assert (xs + ys)[|xs + ys| - 1] == ys[n];
      assert BulletLines(xs + ys) == BulletLines(xs + ys[..n]) + tail;
      BulletLinesAppend(xs, ys[..n]);
    } else {
      assert xs + ys == xs;
    }
  }

  /** An empty entry contributes nothing, wherever it stands in the list. */
  lemma BulletsIgnoreEmpty(xs: seq<string>, ys: seq<string>)
    ensures Bullets(xs + [""] + ys) == Bullets(xs + ys)
  {
    BulletLinesAppend(xs + [""], ys);
    assert (xs + [""])[..|xs|] == xs;
    assert BulletLines(xs + [""]) == BulletLines(xs);
    BulletLinesAppend(xs, ys);
  }

  // ---------------------------------------------------------------------------
  // Tags
  // ---------------------------------------------------------------------------

  function Open(tag: string): string
  {
    "<" + tag + ">"
  }

  function Close(tag: string): string
  {
    "</" + tag + ">"
  }

  /** A sub-block: the opening tag, the body and the closing tag on lines of their own. */
  function Tagged(tag: string, body: string): string
  {
    Open(tag) + "\n" + body + "\n" + Close(tag)
  }
  /** A sub-block, whatever follows it, starts with its opening tag on a line of its own. */
  lemma TaggedStarts(tag: string, body: string, rest: string)
    ensures StartsWith(Tagged(tag, body) + rest, Open(tag) + "\n")
    ensures Tagged(tag, body) != ""
  {
    var head := Open(tag) + "\n";
    assert Tagged(tag, body) + rest == head + (body + "\n" + Close(tag) + rest);
    assert (head + (body + "\n" + Close(tag) + rest))[..|head|] == head;
  }


  /**
    One field of a section, in the form its sub-block takes: a list rendered as a
    bullet block, or a string emitted verbatim (`Strategy.approach`).
   */
  datatype Field = Bulleted(tag: string, entries: seq<string>) | Verbatim(tag: string, text: string)

  /** Python truthiness of the field's value, as the sections' first `if` tests it. */
  predicate Given(f: Field)
  {
    match f
    case Bulleted(_, es) => es != []
    case Verbatim(_, t) => t != ""
  }

  /** The field has something to show: a non-empty entry, or non-empty text. */
  predicate Present(f: Field)
  {
    match f
    case Bulleted(_, es) => HasContent(es)
    case Verbatim(_, t) => t != ""
  }

  /** The text between the field's tags. */
  function Body(f: Field): string
  {
    match f
    case Bulleted(_, es) => Bullets(es)
    case Verbatim(_, t) => t
  }

  function Block(f: Field): string
  {
    Tagged(f.tag, Body(f))
  }

  /** The field's sub-block when it has something to show, nothing otherwise. */
  function Emit(f: Field): seq<string>
  {
    if Present(f) then [Block(f)] else []
  }

  /** The sub-blocks of the fields, in field order. */
  function Blocks(fs: seq<Field>): seq<string>
  {
    if fs == [] then [] else Emit(fs[0]) + Blocks(fs[1..])
  }

  predicate AnyGiven(fs: seq<Field>)
  {
    exists k :: 0 <= k < |fs| && Given(fs[k])
  }

  /**
    The text of a section with an outer tag: nothing when no field is given at all,
    otherwise the outer tag around the sub-blocks of the fields that have something to show.
   */
  function SectionMarkup(outer: string, fs: seq<Field>): string
  {
    if AnyGiven(fs) then Wrapped(outer, Blocks(fs)) else ""
  }

  /**
    One conditional append of the source (`if value: text = ...; if text: parts.append(...)`)
    adds exactly `Emit(f)`: the sub-block appears iff the field has something to show.
   */
  lemma EmitStep(before: seq<string>, after: seq<string>, f: Field)
    requires
      || (after == before && !(Given(f) && Body(f) != ""))
      || (Given(f) && Body(f) != "" && after == before + [Tagged(f.tag, Body(f))])
    ensures after == before + Emit(f)
  {
    if f.Bulleted? {
      BulletsEmptyIff(f.entries);
    }
  }

  lemma {:induction false} BlocksAppend(fs: seq<Field>, gs: seq<Field>)
    ensures Blocks(fs + gs) == Blocks(fs) + Blocks(gs)
  {
    if fs == [] {
      assert fs + gs == gs;
    } else {
      assert (fs + gs)[1..] == fs[1..] + gs;
      BlocksAppend(fs[1..], gs);
    }
  }

  lemma {:induction false} BlocksNone(fs: seq<Field>)
    requires forall k :: 0 <= k < |fs| ==> !Present(fs[k])
    ensures Blocks(fs) == []
  {
    if fs != [] {
      assert !Present(fs[0]);
      BlocksNone(fs[1..]);
    }
  }

  /** The sub-block of a field that has something to show sits at the position after the earlier ones. */
  lemma BlocksAt(fs: seq<Field>, k: nat)
    requires k < |fs| && Present(fs[k])
    ensures |Blocks(fs[..k])| < |Blocks(fs)|
    ensures Blocks(fs)[|Blocks(fs[..k])|] == Block(fs[k])
  {
    assert fs == fs[..k] + ([fs[k]] + fs[k + 1..]);
    BlocksAppend(fs[..k], [fs[k]] + fs[k + 1..]);
    BlocksAppend([fs[k]], fs[k + 1..]);
    assert [fs[k]][1..] == [];
  }

  lemma BlocksPositionGrows(fs: seq<Field>, k1: nat, k2: nat)
    requires k1 < k2 <= |fs| && Present(fs[k1])
    ensures |Blocks(fs[..k1])| < |Blocks(fs[..k2])|
  {
    assert fs[..k2] == fs[..k1] + fs[k1..k2];
    BlocksAppend(fs[..k1], fs[k1..k2]);
    assert fs[k1..k2][0] == fs[k1];
  }

  /** A field with nothing to show contributes nothing: removing it leaves the sub-blocks unchanged. */
  lemma BlocksOmit(fs: seq<Field>, k: nat)
    requires k < |fs| && !Present(fs[k])
    ensures Blocks(fs) == Blocks(fs[..k] + fs[k + 1..])
  {
    var pre, mid, post := fs[..k], [fs[k]] + fs[k + 1..], fs[k + 1..];
    assert fs == pre + mid;
    assert mid[1..] == post;
    assert Blocks(mid) == Blocks(post);
    BlocksAppend(pre, mid);
    BlocksAppend(pre, post);
  }

  /** An outer tag on its own line, each block on its own line(s), the closing tag last. */
  function Wrapped(outer: string, blocks: seq<string>): string
  {
    Open(outer) + "\n" + Terminated("\n", blocks) + Close(outer)
  }

  /** Joining the opening tag, the blocks and the closing tag with newlines gives `Wrapped`. */
  lemma WrappedJoin(outer: string, blocks: seq<string>)
    ensures Join("\n", [Open(outer)] + blocks + [Close(outer)]) == Wrapped(outer, blocks)
  {
    JoinSnoc("\n", [Open(outer)] + blocks, Close(outer));
    assert ([Open(outer)] + blocks)[1..] == blocks;
  }

  lemma WrappedShape(outer: string, blocks: seq<string>)
    ensures StartsWith(Wrapped(outer, blocks), Open(outer) + "\n")
    ensures EndsWith(Wrapped(outer, blocks), Close(outer))
    ensures blocks == [] ==> Wrapped(outer, blocks) == Open(outer) + "\n" + Close(outer)
  {
    var w := Wrapped(outer, blocks);
    var head := Open(outer) + "\n";
    assert w == head + (Terminated("\n", blocks) + Close(outer));
    assert w[..|head|] == head;
    assert w == (head + Terminated("\n", blocks)) + Close(outer);
    assert w[|w| - |Close(outer)|..] == Close(outer);
  }

  lemma WrappedContains(outer: string, blocks: seq<string>, i: nat)
    requires i < |blocks|
    ensures Contains(Wrapped(outer, blocks), blocks[i])
  {
    TerminatedContains("\n", blocks, i);
    ContainsConcat(Open(outer) + "\n", Terminated("\n", blocks), Close(outer), blocks[i]);
  }

  lemma WrappedOrder(outer: string, blocks: seq<string>, i: nat, j: nat)
    requires i < j < |blocks|
    ensures Precedes(Wrapped(outer, blocks), blocks[i], blocks[j])
  {
    TerminatedPrecedes("\n", blocks, i, j);
    PrecedesConcat(Open(outer) + "\n", Terminated("\n", blocks), Close(outer), blocks[i], blocks[j]);
  }

  /** A non-empty entry of a list appears, bulleted, inside that list's sub-block. */
  lemma BlockMentions(f: Field, i: nat)
    requires f.Bulleted? && i < |f.entries| && f.entries[i] != ""
    ensures Present(f)
    ensures Contains(Block(f), "- " + f.entries[i])
  {
    BulletsMention(f.entries, i);
    ContainsConcat(Open(f.tag) + "\n", Bullets(f.entries), "\n" + Close(f.tag), "- " + f.entries[i]);
    assert Open(f.tag) + "\n" + Bullets(f.entries) + ("\n" + Close(f.tag)) == Block(f);
  }

  // ---------------------------------------------------------------------------
  // What every section with an outer tag promises
  // ---------------------------------------------------------------------------

  /**
    Empty exactly when no field is given; otherwise framed by the outer tag; and when
    fields are given but none has anything to show, exactly the two tags on two lines.
   */
  lemma SectionShape(outer: string, fs: seq<Field>)
    ensures SectionMarkup(outer, fs) == "" <==> !AnyGiven(fs)
    ensures AnyGiven(fs) ==>
      && StartsWith(SectionMarkup(outer, fs), Open(outer) + "\n")
      && EndsWith(SectionMarkup(outer, fs), Close(outer))
    ensures AnyGiven(fs) && (forall k :: 0 <= k < |fs| ==> !Present(fs[k])) ==>
      SectionMarkup(outer, fs) == Open(outer) + "\n" + Close(outer)
  {
    WrappedShape(outer, Blocks(fs));
    if forall k :: 0 <= k < |fs| ==> !Present(fs[k]) {
      BlocksNone(fs);
    }
  }

  /** The sub-block of every field that has something to show appears in the section. */
  lemma SectionShowsBlock(outer: string, fs: seq<Field>, k: nat)
    requires k < |fs| && Present(fs[k])
    ensures Contains(SectionMarkup(outer, fs), Block(fs[k]))
  {
    assert Given(fs[k]);
    BlocksAt(fs, k);
    WrappedContains(outer, Blocks(fs), |Blocks(fs[..k])|);
  }

  /** Every non-empty entry of every list appears in the section as a bullet line. */
  lemma SectionMentions(outer: string, fs: seq<Field>, k: nat, i: nat)
    requires k < |fs| && fs[k].Bulleted? && i < |fs[k].entries| && fs[k].entries[i] != ""
    ensures Contains(SectionMarkup(outer, fs), "- " + fs[k].entries[i])
  {
    BlockMentions(fs[k], i);
    SectionShowsBlock(outer, fs, k);
    ContainsTrans(SectionMarkup(outer, fs), Block(fs[k]), "- " + fs[k].entries[i]);
  }

  /** Sub-blocks follow the order of the fields, whatever the data. */
  lemma SectionOrder(outer: string, fs: seq<Field>, k1: nat, k2: nat)
    requires k1 < k2 < |fs| && Present(fs[k1]) && Present(fs[k2])
    ensures Precedes(SectionMarkup(outer, fs), Block(fs[k1]), Block(fs[k2]))
  {
    assert Given(fs[k1]);
    BlocksAt(fs, k1);
    BlocksAt(fs, k2);
    BlocksPositionGrows(fs, k1, k2);
    WrappedOrder(outer, Blocks(fs), |Blocks(fs[..k1])|, |Blocks(fs[..k2])|);
  }

  lemma AnyGiven2(f0: Field, f1: Field)
    ensures AnyGiven([f0, f1]) <==> Given(f0) || Given(f1)
  {
    if AnyGiven([f0, f1]) {
      var k :| 0 <= k < 2 && Given([f0, f1][k]);
      assert k == 0 || k == 1;
    }
    if Given(f0) {
      assert Given([f0, f1][0]);
    }
    if Given(f1) {
      assert Given([f0, f1][1]);
    }
  }

  lemma AnyGiven3(f0: Field, f1: Field, f2: Field)
    ensures AnyGiven([f0, f1, f2]) <==> Given(f0) || Given(f1) || Given(f2)
  {
    if AnyGiven([f0, f1, f2]) {
      var k :| 0 <= k < 3 && Given([f0, f1, f2][k]);
      assert k == 0 || k == 1 || k == 2;
    }
    if Given(f0) {
      assert Given([f0, f1, f2][0]);
    }
    if Given(f1) {
      assert Given([f0, f1, f2][1]);
    }
    if Given(f2) {
      assert Given([f0, f1, f2][2]);
    }
  }

  lemma Blocks1(f0: Field)
    ensures Blocks([f0]) == Emit(f0)
  {
    assert [f0][1..] == [];
  }

  lemma Blocks2(f0: Field, f1: Field)
    ensures Blocks([f0, f1]) == Emit(f0) + Emit(f1)
  {
    assert [f0, f1][1..] == [f1];
    Blocks1(f1);
  }

  lemma Blocks3(f0: Field, f1: Field, f2: Field)
    ensures Blocks([f0, f1, f2]) == Emit(f0) + Emit(f1) + Emit(f2)
  {
    assert [f0, f1, f2][1..] == [f1, f2];
    Blocks2(f1, f2);
  }

  /** The source's parts list for a section, joined, is `SectionMarkup` once some field is given. */
  lemma SectionJoin(outer: string, fs: seq<Field>, blocks: seq<string>)
    requires AnyGiven(fs) && blocks == Blocks(fs)
    ensures Join("\n", [Open(outer)] + blocks + [Close(outer)]) == SectionMarkup(outer, fs)
  {
    WrappedJoin(outer, blocks);
  }

  /** The source's parts list for a two-field section, joined, is `SectionMarkup`. */
  lemma SectionJoin2(outer: string, f0: Field, f1: Field)
    requires Given(f0) || Given(f1)
    ensures Join("\n", [Open(outer)] + Emit(f0) + Emit(f1) + [Close(outer)]) == SectionMarkup(outer, [f0, f1])
  {
    AnyGiven2(f0, f1);
    Blocks2(f0, f1);
    SectionJoin(outer, [f0, f1], Emit(f0) + Emit(f1));
    assert [Open(outer)] + Emit(f0) + Emit(f1) + [Close(outer)]
      == [Open(outer)] + (Emit(f0) + Emit(f1)) + [Close(outer)];
  }

  /** The source's parts list for a three-field section, joined, is `SectionMarkup`. */
  lemma SectionJoin3(outer: string, f0: Field, f1: Field, f2: Field)
    requires Given(f0) || Given(f1) || Given(f2)
    ensures Join("\n", [Open(outer)] + Emit(f0) + Emit(f1) + Emit(f2) + [Close(outer)])
      == SectionMarkup(outer, [f0, f1, f2])
  {
    AnyGiven3(f0, f1, f2);
    Blocks3(f0, f1, f2);
    SectionJoin(outer, [f0, f1, f2], Emit(f0) + Emit(f1) + Emit(f2));
    assert [Open(outer)] + Emit(f0) + Emit(f1) + Emit(f2) + [Close(outer)]
      == [Open(outer)] + (Emit(f0) + Emit(f1) + Emit(f2)) + [Close(outer)];
  }

  lemma NonePresent2(f0: Field, f1: Field)
    ensures !Present(f0) && !Present(f1) ==> forall k :: 0 <= k < |[f0, f1]| ==> !Present([f0, f1][k])
  {
  }

  lemma NonePresent3(f0: Field, f1: Field, f2: Field)
    ensures !Present(f0) && !Present(f1) && !Present(f2) ==>
      forall k :: 0 <= k < |[f0, f1, f2]| ==> !Present([f0, f1, f2][k])
  {
  }

  // ---------------------------------------------------------------------------
  // Personality (agent_models.py:22-45): no outer tag, sub-blocks separated by a blank line
  // ---------------------------------------------------------------------------

  datatype Personality = Personality(primaryTraits: seq<string>, communicationStyle: seq<string>) {

    function Traits(): Field
    {
      Bulleted("personality_traits", primaryTraits)
    }

    function Style(): Field
    {
      Bulleted("communication_style", communicationStyle)
    }

    /** Whichever of the two sub-blocks have something to show, separated by a blank line. */
    function Markup(): string
    {
      if Present(Traits()) && Present(Style()) then Block(Traits()) + "\n\n" + Block(Style())
      else if Present(Traits()) then Block(Traits())
      else if Present(Style()) then Block(Style())
      else ""
    }

    /** `Personality.__str__`. */
    method Render() returns (text: string)
      ensures text == Markup()
    {
      if primaryTraits == [] && communicationStyle == [] {
        return "";
      }
      var parts := [];
      var before := parts;
      if primaryTraits != [] {
        var traitsText := Bullets(primaryTraits);
        if traitsText != "" {
          parts := parts + [Tagged("personality_traits", traitsText)];
        }
      }
      EmitStep(before, parts, Traits());
      before := parts;
      if communicationStyle != [] {
        var styleText := Bullets(communicationStyle);
        if styleText != "" {
          parts := parts + [Tagged("communication_style", styleText)];
        }
      }
      EmitStep(before, parts, Style());
      text := Join("\n\n", parts);
      PersonalityJoin(this);
    }
  }

  /** Joining the personality sub-blocks with a blank line gives `Markup`. */
  lemma PersonalityJoin(p: Personality)
    ensures Join("\n\n", [] + Emit(p.Traits()) + Emit(p.Style())) == p.Markup()
  {
    var parts := [] + Emit(p.Traits()) + Emit(p.Style());
    if |parts| == 2 {
      assert parts[1..] == [parts[1]];
    }
  }

  /**
    The personality text is empty exactly when neither list has a non-empty entry, so a
    list holding only empty strings counts as absent; there is no outer tag, the text
    starts with the first sub-block that has something to show.
   */
  lemma PersonalityShape(p: Personality)
    ensures p.Markup() == "" <==> !HasContent(p.primaryTraits) && !HasContent(p.communicationStyle)
    ensures HasContent(p.primaryTraits) ==> StartsWith(p.Markup(), Open("personality_traits") + "\n")
    ensures HasContent(p.primaryTraits) && !HasContent(p.communicationStyle) ==>
      p.Markup() == Tagged("personality_traits", Bullets(p.primaryTraits))
    ensures !HasContent(p.primaryTraits) && HasContent(p.communicationStyle) ==>
      p.Markup() == Tagged("communication_style", Bullets(p.communicationStyle))
    ensures HasContent(p.primaryTraits) && HasContent(p.communicationStyle) ==>
      p.Markup() == Tagged("personality_traits", Bullets(p.primaryTraits)) + "\n\n"
        + Tagged("communication_style", Bullets(p.communicationStyle))
  {
    var traits, style := Block(p.Traits()), Block(p.Style());
    assert Present(p.Traits()) == HasContent(p.primaryTraits);
    assert Present(p.Style()) == HasContent(p.communicationStyle);
    TaggedStarts("personality_traits", Bullets(p.primaryTraits), "\n\n" + style);
    TaggedStarts("personality_traits", Bullets(p.primaryTraits), "");
    TaggedStarts("communication_style", Bullets(p.communicationStyle), "");
  }

  /** Each sub-block that has something to show appears in the personality text. */
  lemma PersonalityShowsBlock(p: Personality)
    ensures Present(p.Traits()) ==> Contains(p.Markup(), Block(p.Traits()))
    ensures Present(p.Style()) ==> Contains(p.Markup(), Block(p.Style()))
  {
    var traits, style := Block(p.Traits()), Block(p.Style());
    var m := p.Markup();
    if Present(p.Traits()) && Present(p.Style()) {
      var gap := "\n\n";
      assert m == traits + (gap + style);
      ContainsPrefix(traits, gap + style);
      assert Contains(m, traits);
      assert m == (traits + gap) + style;
      ContainsSuffix(traits + gap, style);
      assert Contains(m, style);
    } else if Present(p.Traits()) {
      ContainsSelf(traits);
    } else if Present(p.Style()) {
      ContainsSelf(style);
    }
  }

  /** Every non-empty entry of either list appears in the text as a bullet line. */
  lemma PersonalityMentions(p: Personality, i: nat)
    ensures i < |p.primaryTraits| && p.primaryTraits[i] != "" ==>
      Contains(p.Markup(), "- " + p.primaryTraits[i])
    ensures i < |p.communicationStyle| && p.communicationStyle[i] != "" ==>
      Contains(p.Markup(), "- " + p.communicationStyle[i])
  {
    PersonalityShowsBlock(p);
    if i < |p.primaryTraits| && p.primaryTraits[i] != "" {
      BlockMentions(p.Traits(), i);
      ContainsTrans(p.Markup(), Block(p.Traits()), "- " + p.primaryTraits[i]);
    }
    if i < |p.communicationStyle| && p.communicationStyle[i] != "" {
      BlockMentions(p.Style(), i);
      ContainsTrans(p.Markup(), Block(p.Style()), "- " + p.communicationStyle[i]);
    }
  }

  // ---------------------------------------------------------------------------
  // Capabilities (agent_models.py:48-81)
  // ---------------------------------------------------------------------------
  datatype Capabilities = Capabilities(
    programmingLanguages: seq<string>,
    frameworksAndTools: seq<string>,
    projectTypes: seq<string>)
  {
    /** The fields that are rendered, in declaration order. */
    function Fields(): seq<Field>
    {
      [ Bulleted("programming_languages", programmingLanguages),
        Bulleted("frameworks_and_tools", frameworksAndTools),
        Bulleted("project_types", projectTypes) ]
    }

    function Markup(): string
    {
      SectionMarkup("capabilities", Fields())
    }

    /** `Capabilities.__str__`. */
    method Render() returns (text: string)
      ensures text == Markup()
    {
      AnyGiven3(Bulleted("programming_languages", programmingLanguages),
        Bulleted("frameworks_and_tools", frameworksAndTools),
        Bulleted("project_types", projectTypes));
      if !(programmingLanguages != [] || frameworksAndTools != [] || projectTypes != []) {
        return "";
      }
      var parts := [Open("capabilities")];
      var before := parts;
      if programmingLanguages != [] {
        var langText := Bullets(programmingLanguages);
        if langText != "" {
          parts := parts + [Tagged("programming_languages", langText)];
        }
      }
      EmitStep(before, parts, Bulleted("programming_languages", programmingLanguages));
      before := parts;
      if frameworksAndTools != [] {
        var toolsText := Bullets(frameworksAndTools);
        if toolsText != "" {
          parts := parts + [Tagged("frameworks_and_tools", toolsText)];
        }
      }
      EmitStep(before, parts, Bulleted("frameworks_and_tools", frameworksAndTools));
      before := parts;
      if projectTypes != [] {
        var typesText := Bullets(projectTypes);
        if typesText != "" {
          parts := parts + [Tagged("project_types", typesText)];
        }
      }
      EmitStep(before, parts, Bulleted("project_types", projectTypes));
      parts := parts + [Close("capabilities")];
      text := Join("\n", parts);
      SectionJoin3("capabilities", Bulleted("programming_languages", programmingLanguages),
        Bulleted("frameworks_and_tools", frameworksAndTools),
        Bulleted("project_types", projectTypes));
    }
  }

  /**
    Empty exactly when every field is empty (the test is on the lists, not on their
    entries); otherwise framed by `<capabilities>`; fields given with nothing to show
    leave exactly the two tags.
   */
  lemma CapabilitiesShape(c: Capabilities)
    ensures c.Markup() == "" <==> c.programmingLanguages == [] && c.frameworksAndTools == [] && c.projectTypes == []
    ensures c.Markup() != "" ==>
      StartsWith(c.Markup(), Open("capabilities") + "\n") && EndsWith(c.Markup(), Close("capabilities"))
    ensures (c.programmingLanguages != [] || c.frameworksAndTools != [] || c.projectTypes != []) && (!HasContent(c.programmingLanguages) && !HasContent(c.frameworksAndTools) && !HasContent(c.projectTypes)) ==>
      c.Markup() == Open("capabilities") + "\n" + Close("capabilities")
  {
    AnyGiven3(Bulleted("programming_languages", c.programmingLanguages),
      Bulleted("frameworks_and_tools", c.frameworksAndTools),
      Bulleted("project_types", c.projectTypes));
    SectionShape("capabilities", c.Fields());
    NonePresent3(Bulleted("programming_languages", c.programmingLanguages),
      Bulleted("frameworks_and_tools", c.frameworksAndTools),
      Bulleted("project_types", c.projectTypes));
  }

  /** Every non-empty entry of every list appears in the text as a bullet line. */
  lemma CapabilitiesMentions(c: Capabilities, i: nat)
    ensures i < |c.programmingLanguages| && c.programmingLanguages[i] != "" ==>
      Contains(c.Markup(), "- " + c.programmingLanguages[i])
    ensures i < |c.frameworksAndTools| && c.frameworksAndTools[i] != "" ==>
      Contains(c.Markup(), "- " + c.frameworksAndTools[i])
    ensures i < |c.projectTypes| && c.projectTypes[i] != "" ==>
      Contains(c.Markup(), "- " + c.projectTypes[i])
  {
    if i < |c.programmingLanguages| && c.programmingLanguages[i] != "" {
      SectionMentions("capabilities", c.Fields(), 0, i);
    }
    if i < |c.frameworksAndTools| && c.frameworksAndTools[i] != "" {
      SectionMentions("capabilities", c.Fields(), 1, i);
    }
    if i < |c.projectTypes| && c.projectTypes[i] != "" {
      SectionMentions("capabilities", c.Fields(), 2, i);
    }
  }

  /** The sub-blocks appear in declaration order (programming_languages, frameworks_and_tools, project_types), whatever the data. */
  lemma CapabilitiesOrder(c: Capabilities)
    ensures HasContent(c.programmingLanguages) && HasContent(c.frameworksAndTools) ==>
      Precedes(c.Markup(), Tagged("programming_languages", Bullets(c.programmingLanguages)), Tagged("frameworks_and_tools", Bullets(c.frameworksAndTools)))
    ensures HasContent(c.programmingLanguages) && HasContent(c.projectTypes) ==>
      Precedes(c.Markup(), Tagged("programming_languages", Bullets(c.programmingLanguages)), Tagged("project_types", Bullets(c.projectTypes)))
    ensures HasContent(c.frameworksAndTools) && HasContent(c.projectTypes) ==>
      Precedes(c.Markup(), Tagged("frameworks_and_tools", Bullets(c.frameworksAndTools)), Tagged("project_types", Bullets(c.projectTypes)))
  {
    if HasContent(c.programmingLanguages) && HasContent(c.frameworksAndTools) {
      SectionOrder("capabilities", c.Fields(), 0, 1);
    }
    if HasContent(c.programmingLanguages) && HasContent(c.projectTypes) {
      SectionOrder("capabilities", c.Fields(), 0, 2);
    }
    if HasContent(c.frameworksAndTools) && HasContent(c.projectTypes) {
      SectionOrder("capabilities", c.Fields(), 1, 2);
    }
  }

  // ---------------------------------------------------------------------------
  // Strategy (agent_models.py:84-113)
  // ---------------------------------------------------------------------------
  /** `phases` is part of the record but never rendered. */
  datatype Strategy = Strategy(
    approach: string,
    phases: map<int, string>,
    replicationTargets: seq<string>,
    qualityStandards: seq<string>)
  {
    /** The fields that are rendered, in declaration order. */
    function Fields(): seq<Field>
    {
      [ Verbatim("approach", approach),
        Bulleted("replication_targets", replicationTargets),
        Bulleted("quality_standards", qualityStandards) ]
    }

    function Markup(): string
    {
      SectionMarkup("self_replication_strategy", Fields())
    }

    /** `Strategy.__str__`. */
    method Render() returns (text: string)
      ensures text == Markup()
    {
      AnyGiven3(Verbatim("approach", approach),
        Bulleted("replication_targets", replicationTargets),
        Bulleted("quality_standards", qualityStandards));
      if !(approach != "" || replicationTargets != [] || qualityStandards != []) {
        return "";
      }
      var parts := [Open("self_replication_strategy")];
      var before := parts;
      if approach != "" {
        parts := parts + [Tagged("approach", approach)];
      }
      EmitStep(before, parts, Verbatim("approach", approach));
      before := parts;
      if replicationTargets != [] {
        var targetsText := Bullets(replicationTargets);
        if targetsText != "" {
          parts := parts + [Tagged("replication_targets", targetsText)];
        }
      }
      EmitStep(before, parts, Bulleted("replication_targets", replicationTargets));
      before := parts;
      if qualityStandards != [] {
        var standardsText := Bullets(qualityStandards);
        if standardsText != "" {
          parts := parts + [Tagged("quality_standards", standardsText)];
        }
      }
      EmitStep(before, parts, Bulleted("quality_standards", qualityStandards));
      parts := parts + [Close("self_replication_strategy")];
      text := Join("\n", parts);
      SectionJoin3("self_replication_strategy", Verbatim("approach", approach),
        Bulleted("replication_targets", replicationTargets),
        Bulleted("quality_standards", qualityStandards));
    }
  }

  /**
    Empty exactly when every field is empty (the test is on the lists, not on their
    entries); otherwise framed by `<self_replication_strategy>`; fields given with nothing to show
    leave exactly the two tags.
   */
  lemma StrategyShape(s: Strategy)
    ensures s.Markup() == "" <==> s.approach == "" && s.replicationTargets == [] && s.qualityStandards == []
    ensures s.Markup() != "" ==>
      StartsWith(s.Markup(), Open("self_replication_strategy") + "\n") && EndsWith(s.Markup(), Close("self_replication_strategy"))
    ensures (s.approach != "" || s.replicationTargets != [] || s.qualityStandards != []) && (s.approach == "" && !HasContent(s.replicationTargets) && !HasContent(s.qualityStandards)) ==>
      s.Markup() == Open("self_replication_strategy") + "\n" + Close("self_replication_strategy")
  {
    AnyGiven3(Verbatim("approach", s.approach),
      Bulleted("replication_targets", s.replicationTargets),
      Bulleted("quality_standards", s.qualityStandards));
    SectionShape("self_replication_strategy", s.Fields());
    NonePresent3(Verbatim("approach", s.approach),
      Bulleted("replication_targets", s.replicationTargets),
      Bulleted("quality_standards", s.qualityStandards));
  }

  /** Every non-empty entry of every list appears in the text as a bullet line. */
  lemma StrategyMentions(s: Strategy, i: nat)
    ensures i < |s.replicationTargets| && s.replicationTargets[i] != "" ==>
      Contains(s.Markup(), "- " + s.replicationTargets[i])
    ensures i < |s.qualityStandards| && s.qualityStandards[i] != "" ==>
      Contains(s.Markup(), "- " + s.qualityStandards[i])
  {
    if i < |s.replicationTargets| && s.replicationTargets[i] != "" {
      SectionMentions("self_replication_strategy", s.Fields(), 1, i);
    }
    if i < |s.qualityStandards| && s.qualityStandards[i] != "" {
      SectionMentions("self_replication_strategy", s.Fields(), 2, i);
    }
  }

  /** The approach appears verbatim, without a bullet, inside its own tag. */
  lemma StrategyApproach(s: Strategy)
    ensures s.approach != "" ==> Contains(s.Markup(), Tagged("approach", s.approach))
  {
    if s.approach != "" {
      SectionShowsBlock("self_replication_strategy", s.Fields(), 0);
    }
  }

  /** The sub-blocks appear in declaration order (approach, replication_targets, quality_standards), whatever the data. */
  lemma StrategyOrder(s: Strategy)
    ensures s.approach != "" && HasContent(s.replicationTargets) ==>
      Precedes(s.Markup(), Tagged("approach", s.approach), Tagged("replication_targets", Bullets(s.replicationTargets)))
    ensures s.approach != "" && HasContent(s.qualityStandards) ==>
      Precedes(s.Markup(), Tagged("approach", s.approach), Tagged("quality_standards", Bullets(s.qualityStandards)))
    ensures HasContent(s.replicationTargets) && HasContent(s.qualityStandards) ==>
      Precedes(s.Markup(), Tagged("replication_targets", Bullets(s.replicationTargets)), Tagged("quality_standards", Bullets(s.qualityStandards)))
  {
    if s.approach != "" && HasContent(s.replicationTargets) {
      SectionOrder("self_replication_strategy", s.Fields(), 0, 1);
    }
    if s.approach != "" && HasContent(s.qualityStandards) {
      SectionOrder("self_replication_strategy", s.Fields(), 0, 2);
    }
    if HasContent(s.replicationTargets) && HasContent(s.qualityStandards) {
      SectionOrder("self_replication_strategy", s.Fields(), 1, 2);
    }
  }

  /** Phases are carried by the record but never shown: changing them leaves the text alone. */
  lemma StrategyIgnoresPhases(s: Strategy, phases: map<int, string>)
    ensures s.(phases := phases).Markup() == s.Markup()
  {
    assert s.(phases := phases).Fields() == s.Fields();
  }

  // ---------------------------------------------------------------------------
  // CoreObjectives (agent_models.py:116-140)
  // ---------------------------------------------------------------------------
  datatype CoreObjectives = CoreObjectives(
    primaryGoals: seq<string>,
    secondaryGoals: seq<string>)
  {
    /** The fields that are rendered, in declaration order. */
    function Fields(): seq<Field>
    {
      [ Bulleted("primary_goals", primaryGoals),
        Bulleted("secondary_goals", secondaryGoals) ]
    }

    function Markup(): string
    {
      SectionMarkup("core_objectives", Fields())
    }

    /** `CoreObjectives.__str__`. */
    method Render() returns (text: string)
      ensures text == Markup()
    {
      AnyGiven2(Bulleted("primary_goals", primaryGoals),
        Bulleted("secondary_goals", secondaryGoals));
      if !(primaryGoals != [] || secondaryGoals != []) {
        return "";
      }
      var parts := [Open("core_objectives")];
      var before := parts;
      if primaryGoals != [] {
        var goalsText := Bullets(primaryGoals);
        if goalsText != "" {
          parts := parts + [Tagged("primary_goals", goalsText)];
        }
      }
      EmitStep(before, parts, Bulleted("primary_goals", primaryGoals));
      before := parts;
      if secondaryGoals != [] {
        var goalsText := Bullets(secondaryGoals);
        if goalsText != "" {
          parts := parts + [Tagged("secondary_goals", goalsText)];
        }
      }
      EmitStep(before, parts, Bulleted("secondary_goals", secondaryGoals));
      parts := parts + [Close("core_objectives")];
      text := Join("\n", parts);
      SectionJoin2("core_objectives", Bulleted("primary_goals", primaryGoals),
        Bulleted("secondary_goals", secondaryGoals));
    }
  }

  /**
    Empty exactly when every field is empty (the test is on the lists, not on their
    entries); otherwise framed by `<core_objectives>`; fields given with nothing to show
    leave exactly the two tags.
   */
  lemma CoreObjectivesShape(c: CoreObjectives)
    ensures c.Markup() == "" <==> c.primaryGoals == [] && c.secondaryGoals == []
    ensures c.Markup() != "" ==>
      StartsWith(c.Markup(), Open("core_objectives") + "\n") && EndsWith(c.Markup(), Close("core_objectives"))
    ensures (c.primaryGoals != [] || c.secondaryGoals != []) && (!HasContent(c.primaryGoals) && !HasContent(c.secondaryGoals)) ==>
      c.Markup() == Open("core_objectives") + "\n" + Close("core_objectives")
  {
    AnyGiven2(Bulleted("primary_goals", c.primaryGoals),
      Bulleted("secondary_goals", c.secondaryGoals));
    SectionShape("core_objectives", c.Fields());
    NonePresent2(Bulleted("primary_goals", c.primaryGoals),
      Bulleted("secondary_goals", c.secondaryGoals));
  }

  /** Every non-empty entry of every list appears in the text as a bullet line. */
  lemma CoreObjectivesMentions(c: CoreObjectives, i: nat)
    ensures i < |c.primaryGoals| && c.primaryGoals[i] != "" ==>
      Contains(c.Markup(), "- " + c.primaryGoals[i])
    ensures i < |c.secondaryGoals| && c.secondaryGoals[i] != "" ==>
      Contains(c.Markup(), "- " + c.secondaryGoals[i])
  {
    if i < |c.primaryGoals| && c.primaryGoals[i] != "" {
      SectionMentions("core_objectives", c.Fields(), 0, i);
    }
    if i < |c.secondaryGoals| && c.secondaryGoals[i] != "" {
      SectionMentions("core_objectives", c.Fields(), 1, i);
    }
  }

  /** The sub-blocks appear in declaration order (primary_goals, secondary_goals), whatever the data. */
  lemma CoreObjectivesOrder(c: CoreObjectives)
    ensures HasContent(c.primaryGoals) && HasContent(c.secondaryGoals) ==>
      Precedes(c.Markup(), Tagged("primary_goals", Bullets(c.primaryGoals)), Tagged("secondary_goals", Bullets(c.secondaryGoals)))
  {
    if HasContent(c.primaryGoals) && HasContent(c.secondaryGoals) {
      SectionOrder("core_objectives", c.Fields(), 0, 1);
    }
  }

  // ---------------------------------------------------------------------------
  // WorkingPrinciples (agent_models.py:143-173)
  // ---------------------------------------------------------------------------
  datatype WorkingPrinciples = WorkingPrinciples(
    codeQuality: seq<string>,
    projectStructure: seq<string>,
    developmentWorkflow: seq<string>)
  {
    /** The fields that are rendered, in declaration order. */
    function Fields(): seq<Field>
    {
      [ Bulleted("code_quality", codeQuality),
        Bulleted("project_structure", projectStructure),
        Bulleted("development_workflow", developmentWorkflow) ]
    }

    function Markup(): string
    {
      SectionMarkup("working_principles", Fields())
    }

    /** `WorkingPrinciples.__str__`. */
    method Render() returns (text: string)
      ensures text == Markup()
    {
      AnyGiven3(Bulleted("code_quality", codeQuality),
        Bulleted("project_structure", projectStructure),
        Bulleted("development_workflow", developmentWorkflow));
      if !(codeQuality != [] || projectStructure != [] || developmentWorkflow != []) {
        return "";
      }
      var parts := [Open("working_principles")];
      var before := parts;
      if codeQuality != [] {
        var qualityText := Bullets(codeQuality);
        if qualityText != "" {
          parts := parts + [Tagged("code_quality", qualityText)];
        }
      }
      EmitStep(before, parts, Bulleted("code_quality", codeQuality));
      before := parts;
      if projectStructure != [] {
        var structureText := Bullets(projectStructure);
        if structureText != "" {
          parts := parts + [Tagged("project_structure", structureText)];
        }
      }
      EmitStep(before, parts, Bulleted("project_structure", projectStructure));
      before := parts;
      if developmentWorkflow != [] {
        var workflowText := Bullets(developmentWorkflow);
        if workflowText != "" {
          parts := parts + [Tagged("development_workflow", workflowText)];
        }
      }
      EmitStep(before, parts, Bulleted("development_workflow", developmentWorkflow));
      parts := parts + [Close("working_principles")];
      text := Join("\n", parts);
      SectionJoin3("working_principles", Bulleted("code_quality", codeQuality),
        Bulleted("project_structure", projectStructure),
        Bulleted("development_workflow", developmentWorkflow));
    }
  }

  /**
    Empty exactly when every field is empty (the test is on the lists, not on their
    entries); otherwise framed by `<working_principles>`; fields given with nothing to show
    leave exactly the two tags.
   */
  lemma WorkingPrinciplesShape(w: WorkingPrinciples)
    ensures w.Markup() == "" <==> w.codeQuality == [] && w.projectStructure == [] && w.developmentWorkflow == []
    ensures w.Markup() != "" ==>
      StartsWith(w.Markup(), Open("working_principles") + "\n") && EndsWith(w.Markup(), Close("working_principles"))
    ensures (w.codeQuality != [] || w.projectStructure != [] || w.developmentWorkflow != []) && (!HasContent(w.codeQuality) && !HasContent(w.projectStructure) && !HasContent(w.developmentWorkflow)) ==>
      w.Markup() == Open("working_principles") + "\n" + Close("working_principles")
  {
    AnyGiven3(Bulleted("code_quality", w.codeQuality),
      Bulleted("project_structure", w.projectStructure),
      Bulleted("development_workflow", w.developmentWorkflow));
    SectionShape("working_principles", w.Fields());
    NonePresent3(Bulleted("code_quality", w.codeQuality),
      Bulleted("project_structure", w.projectStructure),
      Bulleted("development_workflow", w.developmentWorkflow));
  }

  /** Every non-empty entry of every list appears in the text as a bullet line. */
  lemma WorkingPrinciplesMentions(w: WorkingPrinciples, i: nat)
    ensures i < |w.codeQuality| && w.codeQuality[i] != "" ==>
      Contains(w.Markup(), "- " + w.codeQuality[i])
    ensures i < |w.projectStructure| && w.projectStructure[i] != "" ==>
      Contains(w.Markup(), "- " + w.projectStructure[i])
    ensures i < |w.developmentWorkflow| && w.developmentWorkflow[i] != "" ==>
      Contains(w.Markup(), "- " + w.developmentWorkflow[i])
  {
    if i < |w.codeQuality| && w.codeQuality[i] != "" {
      SectionMentions("working_principles", w.Fields(), 0, i);
    }
    if i < |w.projectStructure| && w.projectStructure[i] != "" {
      SectionMentions("working_principles", w.Fields(), 1, i);
    }
    if i < |w.developmentWorkflow| && w.developmentWorkflow[i] != "" {
      SectionMentions("working_principles", w.Fields(), 2, i);
    }
  }

  /** The sub-blocks appear in declaration order (code_quality, project_structure, development_workflow), whatever the data. */
  lemma WorkingPrinciplesOrder(w: WorkingPrinciples)
    ensures HasContent(w.codeQuality) && HasContent(w.projectStructure) ==>
      Precedes(w.Markup(), Tagged("code_quality", Bullets(w.codeQuality)), Tagged("project_structure", Bullets(w.projectStructure)))
    ensures HasContent(w.codeQuality) && HasContent(w.developmentWorkflow) ==>
      Precedes(w.Markup(), Tagged("code_quality", Bullets(w.codeQuality)), Tagged("development_workflow", Bullets(w.developmentWorkflow)))
    ensures HasContent(w.projectStructure) && HasContent(w.developmentWorkflow) ==>
      Precedes(w.Markup(), Tagged("project_structure", Bullets(w.projectStructure)), Tagged("development_workflow", Bullets(w.developmentWorkflow)))
  {
    if HasContent(w.codeQuality) && HasContent(w.projectStructure) {
      SectionOrder("working_principles", w.Fields(), 0, 1);
    }
    if HasContent(w.codeQuality) && HasContent(w.developmentWorkflow) {
      SectionOrder("working_principles", w.Fields(), 0, 2);
    }
    if HasContent(w.projectStructure) && HasContent(w.developmentWorkflow) {
      SectionOrder("working_principles", w.Fields(), 1, 2);
    }
  }

  // ---------------------------------------------------------------------------
  // InteractionGuidelines (agent_models.py:176-200)
  // ---------------------------------------------------------------------------
  datatype InteractionGuidelines = InteractionGuidelines(
    whenInvoked: seq<string>,
    communication: seq<string>)
  {
    /** The fields that are rendered, in declaration order. */
    function Fields(): seq<Field>
    {
      [ Bulleted("when_invoked", whenInvoked),
        Bulleted("communication", communication) ]
    }

    function Markup(): string
    {
      SectionMarkup("interaction_guidelines", Fields())
    }

    /** `InteractionGuidelines.__str__`. */
    method Render() returns (text: string)
      ensures text == Markup()
    {
      AnyGiven2(Bulleted("when_invoked", whenInvoked),
        Bulleted("communication", communication));
      if !(whenInvoked != [] || communication != []) {
        return "";
      }
      var parts := [Open("interaction_guidelines")];
      var before := parts;
      if whenInvoked != [] {
        var invokedText := Bullets(whenInvoked);
        if invokedText != "" {
          parts := parts + [Tagged("when_invoked", invokedText)];
        }
      }
      EmitStep(before, parts, Bulleted("when_invoked", whenInvoked));
      before := parts;
      if communication != [] {
        var commText := Bullets(communication);
        if commText != "" {
          parts := parts + [Tagged("communication", commText)];
        }
      }
      EmitStep(before, parts, Bulleted("communication", communication));
      parts := parts + [Close("interaction_guidelines")];
      text := Join("\n", parts);
      SectionJoin2("interaction_guidelines", Bulleted("when_invoked", whenInvoked),
        Bulleted("communication", communication));
    }
  }

  /**
    Empty exactly when every field is empty (the test is on the lists, not on their
    entries); otherwise framed by `<interaction_guidelines>`; fields given with nothing to show
    leave exactly the two tags.
   */
  lemma InteractionGuidelinesShape(g: InteractionGuidelines)
    ensures g.Markup() == "" <==> g.whenInvoked == [] && g.communication == []
    ensures g.Markup() != "" ==>
      StartsWith(g.Markup(), Open("interaction_guidelines") + "\n") && EndsWith(g.Markup(), Close("interaction_guidelines"))
    ensures (g.whenInvoked != [] || g.communication != []) && (!HasContent(g.whenInvoked) && !HasContent(g.communication)) ==>
      g.Markup() == Open("interaction_guidelines") + "\n" + Close("interaction_guidelines")
  {
    AnyGiven2(Bulleted("when_invoked", g.whenInvoked),
      Bulleted("communication", g.communication));
    SectionShape("interaction_guidelines", g.Fields());
    NonePresent2(Bulleted("when_invoked", g.whenInvoked),
      Bulleted("communication", g.communication));
  }

  /** Every non-empty entry of every list appears in the text as a bullet line. */
  lemma InteractionGuidelinesMentions(g: InteractionGuidelines, i: nat)
    ensures i < |g.whenInvoked| && g.whenInvoked[i] != "" ==>
      Contains(g.Markup(), "- " + g.whenInvoked[i])
    ensures i < |g.communication| && g.communication[i] != "" ==>
      Contains(g.Markup(), "- " + g.communication[i])
  {
    if i < |g.whenInvoked| && g.whenInvoked[i] != "" {
      SectionMentions("interaction_guidelines", g.Fields(), 0, i);
    }
    if i < |g.communication| && g.communication[i] != "" {
      SectionMentions("interaction_guidelines", g.Fields(), 1, i);
    }
  }

  /** The sub-blocks appear in declaration order (when_invoked, communication), whatever the data. */
  lemma InteractionGuidelinesOrder(g: InteractionGuidelines)
    ensures HasContent(g.whenInvoked) && HasContent(g.communication) ==>
      Precedes(g.Markup(), Tagged("when_invoked", Bullets(g.whenInvoked)), Tagged("communication", Bullets(g.communication)))
  {
    if HasContent(g.whenInvoked) && HasContent(g.communication) {
      SectionOrder("interaction_guidelines", g.Fields(), 0, 1);
    }
  }

  // ---------------------------------------------------------------------------
  // SuccessMetrics (agent_models.py:203-216) and LimitationsAndBoundaries (219-232)
  // ---------------------------------------------------------------------------

  datatype SuccessMetrics = SuccessMetrics(metrics: seq<string>) {

    /** `SuccessMetrics.__str__`: the tagged bullet list, or nothing. */
    function Markup(): (r: string)
      ensures r == "" <==> !HasContent(metrics)
      ensures r != "" ==> r == Tagged("success_metrics", Bullets(metrics))
    {
      BulletsEmptyIff(metrics);
      if metrics == [] then ""
      else
        var metricsText := Bullets(metrics);
        if metricsText != "" then Tagged("success_metrics", metricsText) else ""
    }
  }

  datatype LimitationsAndBoundaries = LimitationsAndBoundaries(limitations: seq<string>) {

    /** `LimitationsAndBoundaries.__str__`: the tagged bullet list, or nothing. */
    function Markup(): (r: string)
      ensures r == "" <==> !HasContent(limitations)
      ensures r != "" ==> r == Tagged("limitations_and_boundaries", Bullets(limitations))
    {
      BulletsEmptyIff(limitations);
      if limitations == [] then ""
      else
        var limitationsText := Bullets(limitations);
        if limitationsText != "" then Tagged("limitations_and_boundaries", limitationsText) else ""
    }
  }

  /** Every non-empty metric and every non-empty limitation appears as a bullet line. */
  lemma SingleListMentions(m: SuccessMetrics, l: LimitationsAndBoundaries, i: nat)
    ensures i < |m.metrics| && m.metrics[i] != "" ==> Contains(m.Markup(), "- " + m.metrics[i])
    ensures i < |l.limitations| && l.limitations[i] != "" ==>
      Contains(l.Markup(), "- " + l.limitations[i])
  {
    if i < |m.metrics| && m.metrics[i] != "" {
      BlockMentions(Bulleted("success_metrics", m.metrics), i);
    }
    if i < |l.limitations| && l.limitations[i] != "" {
      BlockMentions(Bulleted("limitations_and_boundaries", l.limitations), i);
    }
  }
}
