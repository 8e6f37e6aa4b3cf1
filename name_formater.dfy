/**
 * NameFormater: asset names built from a pattern such as
 * "MI_{BaseName}{_Color}" taken from the naming table, by substituting the
 * four placeholders BaseName, ModelId, Color and Description, each in four
 * decorated forms ({X}, {_X}, {X_}, {_X_}).
 */
module NameFormater {
  import opened Wrappers
  import opened FString

  /** EFormaterObjectType: the kind of asset a name is made for. */
  datatype FormaterObjectType = Material | MaterialInstance | Texture | StaticMesh | Voxel

  /** EVoxNamingConvention: which family of patterns the naming table offers. */
  datatype NamingConvention = UnrealEngine | VOX4U

  /** NameFormatArgs; `color` and `modelId` are unset when negative. */
  datatype NameFormatArgs = NameFormatArgs(baseName: string, color: int, modelId: int, description: string)

  /** A fresh NameFormatArgs: Color and ModelId default to -1, Description to "". */
  function DefaultArgs(baseName: string): NameFormatArgs
  {
    NameFormatArgs(baseName, -1, -1, "")
  }

  // ---------------------------------------------------------------------------
  // Placeholders
  // ---------------------------------------------------------------------------

  datatype Field = BaseName | ModelId | Color | Description

  /** Plain {X}, Pre {_X}, Post {X_}, Both {_X_}. */
  datatype Decoration = Plain | Pre | Post | Both

  function FieldName(f: Field): string
  {
    match f
    case BaseName => "BaseName"
    case ModelId => "ModelId"
    case Color => "Color"
    case Description => "Description"
  }

  predicate HasLead(d: Decoration)
  {
    d == Pre || d == Both
  }

  predicate HasTrail(d: Decoration)
  {
    d == Post || d == Both
  }

  function Lead(d: Decoration): string
  {
    if HasLead(d) then "_" else ""
  }

  function Trail(d: Decoration): string
  {
    if HasTrail(d) then "_" else ""
  }

  /**
   * The placeholder text: "{", a leading underscore for Pre and Both, the
   * field name, a trailing underscore for Post and Both, "}".
   * Token(Color, Pre) is "{_Color}".
   */
  function Token(f: Field, d: Decoration): string
  {
    "{" + Lead(d) + FieldName(f) + Trail(d) + "}"
  }

  /** The value a field stands for; None for a ModelId or Color that is negative. */
  function FieldValue(f: Field, args: NameFormatArgs): Option<string>
  {
    match f
    case BaseName => Some(args.baseName)
    case ModelId => if args.modelId >= 0 then Some(FromInt(args.modelId)) else None
    case Color => if args.color >= 0 then Some(FromInt(args.color)) else None
    case Description => Some(args.description)
  }

  /**
   * What a placeholder is replaced with: the value with the decoration's
   * underscores, or nothing at all (underscores included) when the value is unset.
   */
  function Expansion(f: Field, d: Decoration, args: NameFormatArgs): string
  {
    match FieldValue(f, args)
    case None => ""
    case Some(v) => Lead(d) + v + Trail(d)
  }

  // ---------------------------------------------------------------------------
  // The substitution steps
  // ---------------------------------------------------------------------------

  const FieldOrder: seq<Field> := [BaseName, ModelId, Color, Description]
  const DecorationOrder: seq<Decoration> := [Plain, Pre, Post, Both]

  /** ApplyPattern runs sixteen steps: the four fields in FieldOrder, once per decoration. */
  function SlotField(k: nat): Field
    requires k < 16
  {
    FieldOrder[k % 4]
  }

  function SlotDecoration(k: nat): Decoration
    requires k < 16
  {
    DecorationOrder[k / 4]
  }

  /**
   * The steps lo..hi-1 run in order over `s`, each over the text the
   * previous ones produced.
   */
  function Run(s: string, args: NameFormatArgs, lo: nat, hi: nat): string
    requires lo <= hi <= 16
    decreases hi
  {
    if hi == lo then s
    else
      var f, d := SlotField(hi - 1), SlotDecoration(hi - 1);
      ReplaceAll(Run(s, args, lo, hi - 1), Token(f, d), Expansion(f, d, args), IgnoreCase)
  }

  /** The name a pattern yields for the given arguments: all sixteen steps. */
  function FormatPattern(pattern: string, args: NameFormatArgs): string
  {
    Run(pattern, args, 0, 16)
  }

  /** The placeholders as ApplyPattern spells them, one decoration at a time. */
  lemma PlainTokens()
    ensures Token(BaseName, Plain) == "{BaseName}" && Token(ModelId, Plain) == "{ModelId}"
    ensures Token(Color, Plain) == "{Color}" && Token(Description, Plain) == "{Description}"
  {
    assert Lead(Plain) == "" && Trail(Plain) == "";
    assert FieldName(BaseName) == "BaseName" && FieldName(ModelId) == "ModelId";
    assert FieldName(Color) == "Color" && FieldName(Description) == "Description";
  }

  lemma PreTokens()
    ensures Token(BaseName, Pre) == "{_BaseName}" && Token(ModelId, Pre) == "{_ModelId}"
    ensures Token(Color, Pre) == "{_Color}" && Token(Description, Pre) == "{_Description}"
  {
    assert Lead(Pre) == "_" && Trail(Pre) == "";
    assert FieldName(BaseName) == "BaseName" && FieldName(ModelId) == "ModelId";
    assert FieldName(Color) == "Color" && FieldName(Description) == "Description";
  }

  lemma PostTokens()
    ensures Token(BaseName, Post) == "{BaseName_}" && Token(ModelId, Post) == "{ModelId_}"
    ensures Token(Color, Post) == "{Color_}" && Token(Description, Post) == "{Description_}"
  {
    assert Lead(Post) == "" && Trail(Post) == "_";
    assert FieldName(BaseName) == "BaseName" && FieldName(ModelId) == "ModelId";
    assert FieldName(Color) == "Color" && FieldName(Description) == "Description";
  }

  lemma BothTokens()
    ensures Token(BaseName, Both) == "{_BaseName_}" && Token(ModelId, Both) == "{_ModelId_}"
    ensures Token(Color, Both) == "{_Color_}" && Token(Description, Both) == "{_Description_}"
  {
    assert Lead(Both) == "_" && Trail(Both) == "_";
    assert FieldName(BaseName) == "BaseName" && FieldName(ModelId) == "ModelId";
    assert FieldName(Color) == "Color" && FieldName(Description) == "Description";
  }

  /** The replacement texts as ApplyPattern computes them, one decoration at a time. */
  lemma PlainExpansions(args: NameFormatArgs)
    ensures Expansion(BaseName, Plain, args) == args.baseName
    ensures Expansion(ModelId, Plain, args) == if args.modelId >= 0 then FromInt(args.modelId) else ""
    ensures Expansion(Color, Plain, args) == if args.color >= 0 then FromInt(args.color) else ""
    ensures Expansion(Description, Plain, args) == args.description
  {
    assert forall v: string :: "" + v + "" == v;
  }

  lemma PreExpansions(args: NameFormatArgs)
    ensures Expansion(BaseName, Pre, args) == "_" + args.baseName
    ensures Expansion(ModelId, Pre, args) == if args.modelId >= 0 then "_" + FromInt(args.modelId) else ""
    ensures Expansion(Color, Pre, args) == if args.color >= 0 then "_" + FromInt(args.color) else ""
    ensures Expansion(Description, Pre, args) == "_" + args.description
  {
    assert forall v: string :: "_" + v + "" == "_" + v;
  }

  lemma PostExpansions(args: NameFormatArgs)
    ensures Expansion(BaseName, Post, args) == args.baseName + "_"
    ensures Expansion(ModelId, Post, args) == if args.modelId >= 0 then FromInt(args.modelId) + "_" else ""
    ensures Expansion(Color, Post, args) == if args.color >= 0 then FromInt(args.color) + "_" else ""
    ensures Expansion(Description, Post, args) == args.description + "_"
  {
    assert forall v: string :: "" + v + "_" == v + "_";
  }

  lemma BothExpansions(args: NameFormatArgs)
    ensures Expansion(BaseName, Both, args) == "_" + args.baseName + "_"
    ensures Expansion(ModelId, Both, args) == if args.modelId >= 0 then "_" + FromInt(args.modelId) + "_" else ""
    ensures Expansion(Color, Both, args) == if args.color >= 0 then "_" + FromInt(args.color) + "_" else ""
    ensures Expansion(Description, Both, args) == "_" + args.description + "_"
  {
  }

  /** The four Default steps (0 to 3) as ApplyPattern writes them. */
  lemma PlainSteps(pattern: string, args: NameFormatArgs, r0: string, r1: string, r2: string, r3: string, r4: string)
    requires r0 == Run(pattern, args, 0, 0)
    requires r1 == ReplaceAll(r0, "{BaseName}", args.baseName, IgnoreCase)
    requires r2 == ReplaceAll(r1, "{ModelId}", if args.modelId >= 0 then FromInt(args.modelId) else "", IgnoreCase)
    requires r3 == ReplaceAll(r2, "{Color}", if args.color >= 0 then FromInt(args.color) else "", IgnoreCase)
    requires r4 == ReplaceAll(r3, "{Description}", args.description, IgnoreCase)
    ensures r4 == Run(pattern, args, 0, 4)
  {
    PlainTokens();
    PlainExpansions(args);
    assert r1 == Run(pattern, args, 0, 1);
    assert r2 == Run(pattern, args, 0, 2);
    assert r3 == Run(pattern, args, 0, 3);
    assert r4 == Run(pattern, args, 0, 4);
  }

  /** The four _Pre steps (4 to 7) as ApplyPattern writes them. */
  lemma PreSteps(pattern: string, args: NameFormatArgs, r0: string, r1: string, r2: string, r3: string, r4: string)
    requires r0 == Run(pattern, args, 0, 4)
    requires r1 == ReplaceAll(r0, "{_BaseName}", "_" + args.baseName, IgnoreCase)
    requires r2 == ReplaceAll(r1, "{_ModelId}", if args.modelId >= 0 then "_" + FromInt(args.modelId) else "", IgnoreCase)
    requires r3 == ReplaceAll(r2, "{_Color}", if args.color >= 0 then "_" + FromInt(args.color) else "", IgnoreCase)
    requires r4 == ReplaceAll(r3, "{_Description}", "_" + args.description, IgnoreCase)
    ensures r4 == Run(pattern, args, 0, 8)
  {
    PreTokens();
    PreExpansions(args);
    assert r1 == Run(pattern, args, 0, 5);
    assert r2 == Run(pattern, args, 0, 6);
    assert r3 == Run(pattern, args, 0, 7);
    assert r4 == Run(pattern, args, 0, 8);
  }

  /** The four Post_ steps (8 to 11) as ApplyPattern writes them. */
  lemma PostSteps(pattern: string, args: NameFormatArgs, r0: string, r1: string, r2: string, r3: string, r4: string)
    requires r0 == Run(pattern, args, 0, 8)
    requires r1 == ReplaceAll(r0, "{BaseName_}", args.baseName + "_", IgnoreCase)
    requires r2 == ReplaceAll(r1, "{ModelId_}", if args.modelId >= 0 then FromInt(args.modelId) + "_" else "", IgnoreCase)
    requires r3 == ReplaceAll(r2, "{Color_}", if args.color >= 0 then FromInt(args.color) + "_" else "", IgnoreCase)
    requires r4 == ReplaceAll(r3, "{Description_}", args.description + "_", IgnoreCase)
    ensures r4 == Run(pattern, args, 0, 12)
  {
    PostTokens();
    PostExpansions(args);
    assert r1 == Run(pattern, args, 0, 9);
    assert r2 == Run(pattern, args, 0, 10);
    assert r3 == Run(pattern, args, 0, 11);
    assert r4 == Run(pattern, args, 0, 12);
  }

  /** The four _Both_ steps (12 to 15) as ApplyPattern writes them. */
  lemma BothSteps(pattern: string, args: NameFormatArgs, r0: string, r1: string, r2: string, r3: string, r4: string)
    requires r0 == Run(pattern, args, 0, 12)
    requires r1 == ReplaceAll(r0, "{_BaseName_}", "_" + args.baseName + "_", IgnoreCase)
    requires r2 == ReplaceAll(r1, "{_ModelId_}", if args.modelId >= 0 then "_" + FromInt(args.modelId) + "_" else "", IgnoreCase)
    requires r3 == ReplaceAll(r2, "{_Color_}", if args.color >= 0 then "_" + FromInt(args.color) + "_" else "", IgnoreCase)
    requires r4 == ReplaceAll(r3, "{_Description_}", "_" + args.description + "_", IgnoreCase)
    ensures r4 == Run(pattern, args, 0, 16)
  {
    BothTokens();
    BothExpansions(args);
    assert r1 == Run(pattern, args, 0, 13);
    assert r2 == Run(pattern, args, 0, 14);
    assert r3 == Run(pattern, args, 0, 15);
    assert r4 == Run(pattern, args, 0, 16);
  }

  /**
   * NameFormater::ApplyPattern: the local result is rewritten by sixteen
   * successive case-insensitive ReplaceInline calls.
   */
  method ApplyPattern(pattern: string, args: NameFormatArgs) returns (result: string)
    ensures result == FormatPattern(pattern, args)
  {
    result := pattern;

    // Default
    ghost var r0 := result;
    assert r0 == Run(pattern, args, 0, 0);
    result := ReplaceInline(result, "{BaseName}", args.baseName, IgnoreCase);
    ghost var r1 := result;
    result := ReplaceInline(result, "{ModelId}", if args.modelId >= 0 then FromInt(args.modelId) else "", IgnoreCase);
    ghost var r2 := result;
    result := ReplaceInline(result, "{Color}", if args.color >= 0 then FromInt(args.color) else "", IgnoreCase);
    ghost var r3 := result;
    result := ReplaceInline(result, "{Description}", args.description, IgnoreCase);
    PlainSteps(pattern, args, r0, r1, r2, r3, result);

    // _Pre
    ghost var r4 := result;
    result := ReplaceInline(result, "{_BaseName}", "_" + args.baseName, IgnoreCase);
    ghost var r5 := result;
    result := ReplaceInline(result, "{_ModelId}", if args.modelId >= 0 then "_" + FromInt(args.modelId) else "", IgnoreCase);
    ghost var r6 := result;
    result := ReplaceInline(result, "{_Color}", if args.color >= 0 then "_" + FromInt(args.color) else "", IgnoreCase);
    ghost var r7 := result;
    result := ReplaceInline(result, "{_Description}", "_" + args.description, IgnoreCase);
    PreSteps(pattern, args, r4, r5, r6, r7, result);

    // Post_
    ghost var r8 := result;
    result := ReplaceInline(result, "{BaseName_}", args.baseName + "_", IgnoreCase);
    ghost var r9 := result;
    result := ReplaceInline(result, "{ModelId_}", if args.modelId >= 0 then FromInt(args.modelId) + "_" else "", IgnoreCase);
    ghost var r10 := result;
    result := ReplaceInline(result, "{Color_}", if args.color >= 0 then FromInt(args.color) + "_" else "", IgnoreCase);
    ghost var r11 := result;
    result := ReplaceInline(result, "{Description_}", args.description + "_", IgnoreCase);
    PostSteps(pattern, args, r8, r9, r10, r11, result);

    // _Both_
    ghost var r12 := result;
    result := ReplaceInline(result, "{_BaseName_}", "_" + args.baseName + "_", IgnoreCase);
    ghost var r13 := result;
    result := ReplaceInline(result, "{_ModelId_}", if args.modelId >= 0 then "_" + FromInt(args.modelId) + "_" else "", IgnoreCase);
    ghost var r14 := result;
    result := ReplaceInline(result, "{_Color_}", if args.color >= 0 then "_" + FromInt(args.color) + "_" else "", IgnoreCase);
    ghost var r15 := result;
    result := ReplaceInline(result, "{_Description_}", "_" + args.description + "_", IgnoreCase);
    BothSteps(pattern, args, r12, r13, r14, r15, result);
  }


  // ---------------------------------------------------------------------------
  // Placeholders in isolation
  // ---------------------------------------------------------------------------

  /** A text with no opening brace: no placeholder can start inside it. */
  predicate BraceFree(s: string)
  {
    forall k :: 0 <= k < |s| ==> s[k] != '{'
  }

  lemma BraceFreeConcat(a: string, b: string, c: string)
    requires BraceFree(a) && BraceFree(b) && BraceFree(c)
    ensures BraceFree(a + b + c)
  {
    forall k | 0 <= k < |a + b + c| ensures (a + b + c)[k] != '{' {
      if k < |a| {
      } else if k < |a| + |b| {
        assert (a + b + c)[k] == b[k - |a|];
      } else {
        assert (a + b + c)[k] == c[k - |a| - |b|];
      }
    }
  }

  predicate IsLetter(c: char)
  {
    'a' <= c <= 'z' || 'A' <= c <= 'Z'
  }

  /** Field names are words of at least five letters. */
  lemma FieldNameLetters(f: Field)
    ensures |FieldName(f)| >= 5
    ensures forall k :: 0 <= k < |FieldName(f)| ==> IsLetter(FieldName(f)[k])
  {
  }

  /** The shape every placeholder has: "{", then text without braces, then "}". */
  predicate Placeholder(t: string)
  {
    |t| >= 3 && t[0] == '{' && t[|t| - 1] == '}' &&
    forall k :: 0 < k < |t| - 1 ==> t[k] != '{' && t[k] != '}'
  }

  /**
   * Every placeholder has that shape; its length and its second and
   * second-to-last characters give away field and decoration.
   */
  lemma TokenShape(f: Field, d: Decoration)
    ensures Placeholder(Token(f, d))
    ensures var t := Token(f, d);
      |t| == 2 + |FieldName(f)| + (if HasLead(d) then 1 else 0) + (if HasTrail(d) then 1 else 0)
    ensures var t := Token(f, d); (t[1] == '_') == HasLead(d) && (t[|t| - 2] == '_') == HasTrail(d)
  {
    var n, l, r := FieldName(f), Lead(d), Trail(d);
    var t := Token(f, d);
    FieldNameLetters(f);
    assert t == ["{"[0]] + l + n + r + ["}"[0]];
    forall k | 0 < k < |t| - 1 ensures t[k] != '{' && t[k] != '}' {
      if k <= |l| {
        assert t[k] == l[k - 1];
      } else if k <= |l| + |n| {
        assert t[k] == n[k - 1 - |l|];
      } else {
        assert t[k] == r[k - 1 - |l| - |n|];
      }
    }
    assert t[1] == if HasLead(d) then '_' else n[0];
    assert t[|t| - 2] == if HasTrail(d) then '_' else n[|n| - 1];
  }


  /**
   * A placeholder that matches at the start of text beginning with another
   * placeholder, even ignoring case, has the same length and the same
   * characters up to case.
   */
  lemma PlaceholderPrefix(p: string, q: string, t: string, mode: SearchCase)
    requires Placeholder(p) && Placeholder(q) && StartsWith(p + t, q, mode)
    ensures |p| == |q| && forall k :: 0 <= k < |p| ==> ToLower(p[k]) == ToLower(q[k])
  {
    var s := p + t;
    var n, m := |p|, |q|;
    assert forall k :: 0 <= k < m ==> ToLower(s[k]) == ToLower(q[k]);
    // q's closing brace lines up with a closing brace of s ...
    ToLowerNonLetter(s[m - 1], '}');
    assert s[m - 1] == '}';
    assert m >= n;
    // ... and p's closing brace with one of q.
    ToLowerNonLetter(q[n - 1], '}');
    assert q[n - 1] == '}';
  }

  /** Texts equal up to case have their underscores in the same places. */
  lemma SameUnderscores(p: string, q: string)
    requires |p| == |q| >= 3 && forall k :: 0 <= k < |p| ==> ToLower(p[k]) == ToLower(q[k])
    ensures (p[1] == '_') == (q[1] == '_') && (p[|p| - 2] == '_') == (q[|q| - 2] == '_')
  {
    var n := |p|;
    ToLowerNonLetter(p[1], '_');
    ToLowerNonLetter(q[1], '_');
    ToLowerNonLetter(p[n - 2], '_');
    ToLowerNonLetter(q[n - 2], '_');
  }

  lemma DecorationByUnderscores(d: Decoration, e: Decoration)
    requires HasLead(d) == HasLead(e) && HasTrail(d) == HasTrail(e)
    ensures d == e
  {
  }

  lemma FieldByLength(f: Field, g: Field)
    requires |FieldName(f)| == |FieldName(g)|
    ensures f == g
  {
  }

  /**
   * No placeholder is a prefix of text that starts with another one, even
   * ignoring case: a match of Token(g, e) at the start of Token(f, d) + t
   * means (g, e) is (f, d).
   */
  lemma TokenMatchSame(f: Field, d: Decoration, g: Field, e: Decoration, t: string, mode: SearchCase)
    ensures StartsWith(Token(f, d) + t, Token(g, e), mode) ==> f == g && d == e
  {
    var p, q := Token(f, d), Token(g, e);
    if StartsWith(p + t, q, mode) {
      TokenShape(f, d);
      TokenShape(g, e);
      PlaceholderPrefix(p, q, t, mode);
      SameUnderscores(p, q);
      DecorationByUnderscores(d, e);
      FieldByLength(f, g);
    }
  }

  /** A text without an opening brace holds nothing that starts with one. */
  lemma ReplaceInBraceFree(s: string, q: string, rep: string)
    requires BraceFree(s) && |q| > 0 && q[0] == '{'
    ensures ReplaceAll(s, q, rep, IgnoreCase) == s
  {
    forall k | 0 <= k < |s| ensures !CharsEqual(s[k], q[0], IgnoreCase) {
      ToLowerNonLetter(s[k], '{');
    }
    ReplaceAllAfterPrefix(s, [], q, rep, IgnoreCase);
    assert s + [] == s;
  }

  /** Replacing q, which does not match at the placeholder t, leaves a + t + b as it is. */
  lemma ReplaceOther(a: string, t: string, b: string, q: string, rep: string)
    requires BraceFree(a) && BraceFree(b) && Placeholder(t) && Placeholder(q)
    requires !StartsWith(t + b, q, IgnoreCase)
    ensures ReplaceAll(a + t + b, q, rep, IgnoreCase) == a + t + b
  {
    forall k | 0 <= k < |a| ensures !CharsEqual(a[k], q[0], IgnoreCase) {
      ToLowerNonLetter(a[k], '{');
    }
    ReplaceAllAfterPrefix(a, t + b, q, rep, IgnoreCase);
    assert a + t + b == a + (t + b);
    var rest := (t + b)[1..];
    assert rest == t[1..] + b;
    assert BraceFree(rest) by {
      forall k | 0 <= k < |rest| ensures rest[k] != '{' {
        if k < |t| - 1 {
          assert rest[k] == t[k + 1];
        } else {
          assert rest[k] == b[k - (|t| - 1)];
        }
      }
    }
    ReplaceInBraceFree(rest, q, rep);
    assert t + b == [t[0]] + rest;
  }

  /** Replacing the placeholder t itself puts the replacement in its place. */
  lemma ReplaceOwn(a: string, t: string, b: string, rep: string)
    requires BraceFree(a) && BraceFree(b) && Placeholder(t)
    ensures ReplaceAll(a + t + b, t, rep, IgnoreCase) == a + rep + b
  {
    forall k | 0 <= k < |a| ensures !CharsEqual(a[k], t[0], IgnoreCase) {
      ToLowerNonLetter(a[k], '{');
    }
    ReplaceAllAfterPrefix(a, t + b, t, rep, IgnoreCase);
    assert a + t + b == a + (t + b);
    assert StartsWith(t + b, t, IgnoreCase);
    assert (t + b)[|t|..] == b;
    ReplaceInBraceFree(b, t, rep);
    assert a + rep + b == a + (rep + b);
  }

  function FieldIndex(f: Field): nat
  {
    match f
    case BaseName => 0
    case ModelId => 1
    case Color => 2
    case Description => 3
  }

  function DecorationIndex(d: Decoration): nat
  {
    match d
    case Plain => 0
    case Pre => 1
    case Post => 2
    case Both => 3
  }

  /** The position of the step that handles a placeholder. */
  function StepIndex(f: Field, d: Decoration): (k: nat)
    ensures k < 16
  {
    4 * DecorationIndex(d) + FieldIndex(f)
  }

  /** Each placeholder is handled by exactly one of the sixteen steps. */
  lemma SlotIndex(k: nat, f: Field, d: Decoration)
    requires k < 16
    ensures (SlotField(k) == f && SlotDecoration(k) == d) <==> k == StepIndex(f, d)
  {
    assert k == 4 * (k / 4) + k % 4;
  }

  /**
   * Steps lo..hi-1 over a lone placeholder between brace-free texts: the
   * placeholder survives unless its own step is among them, and then it
   * becomes its expansion, which no later step touches if it has no brace.
   */
  lemma {:induction false} RunIsolated(a: string, f: Field, d: Decoration, b: string, args: NameFormatArgs, lo: nat, hi: nat)
    requires lo <= hi <= 16 && BraceFree(a) && BraceFree(b)
    ensures !(lo <= StepIndex(f, d) < hi) ==> Run(a + Token(f, d) + b, args, lo, hi) == a + Token(f, d) + b
    ensures lo <= StepIndex(f, d) < hi && BraceFree(Expansion(f, d, args)) ==>
      Run(a + Token(f, d) + b, args, lo, hi) == a + Expansion(f, d, args) + b
    decreases hi
  {
    if hi > lo {
      RunIsolated(a, f, d, b, args, lo, hi - 1);
      var k := hi - 1;
      var g, e := SlotField(k), SlotDecoration(k);
      SlotIndex(k, f, d);
      var i := StepIndex(f, d);
      TokenShape(f, d);
      TokenShape(g, e);
      if i < lo || i > k {
        TokenMatchSame(f, d, g, e, b, IgnoreCase);
        ReplaceOther(a, Token(f, d), b, Token(g, e), Expansion(g, e, args));
      } else if i == k {
        ReplaceOwn(a, Token(f, d), b, Expansion(f, d, args));
      } else if BraceFree(Expansion(f, d, args)) {
        BraceFreeConcat(a, Expansion(f, d, args), b);
        ReplaceInBraceFree(a + Expansion(f, d, args) + b, Token(g, e), Expansion(g, e, args));
      }
    }
  }

  /** The decimal text of a ModelId or Color has no brace. */
  lemma NumberExpansionBraceFree(f: Field, d: Decoration, args: NameFormatArgs)
    requires f == ModelId || f == Color
    ensures BraceFree(Expansion(f, d, args))
  {
    var n := if f == ModelId then args.modelId else args.color;
    if n >= 0 {
      FromIntDecimal(n);
      var v := FromInt(n);
      assert BraceFree(v);
      BraceFreeConcat(Lead(d), v, Trail(d));
    }
  }

  /**
   * GetFormatedName on a pattern with one placeholder: the placeholder
   * becomes its expansion and the surrounding text is kept, as long as the
   * surrounding text and the expansion hold no brace.
   */
  lemma FormatIsolated(a: string, f: Field, d: Decoration, b: string, args: NameFormatArgs)
    requires BraceFree(a) && BraceFree(b) && BraceFree(Expansion(f, d, args))
    ensures FormatPattern(a + Token(f, d) + b, args) == a + Expansion(f, d, args) + b
  {
    RunIsolated(a, f, d, b, args, 0, 16);
  }

  // ---------------------------------------------------------------------------
  // Patterns with several placeholders
  // ---------------------------------------------------------------------------

  /**
   * A pattern taken apart: literal text and placeholders. The pattern
   * "MI_{BaseName}{_Color}" is [Lit("MI_"), Hole(BaseName, Plain), Hole(Color, Pre)].
   */
  datatype Piece = Lit(text: string) | Hole(field: Field, decoration: Decoration)

  function Render(p: Piece): string
  {
    match p
    case Lit(t) => t
    case Hole(f, d) => Token(f, d)
  }

  /** The pattern text the pieces spell out. */
  function Flatten(ps: seq<Piece>): string
    decreases |ps|
  {
    if |ps| == 0 then "" else Render(ps[0]) + Flatten(ps[1..])
  }

  /** No literal text of the pieces holds an opening brace. */
  predicate LiteralsBraceFree(ps: seq<Piece>)
  {
    forall i :: 0 <= i < |ps| && ps[i].Lit? ==> BraceFree(ps[i].text)
  }

  /** No placeholder of the pieces expands to text holding an opening brace. */
  predicate ExpansionsBraceFree(ps: seq<Piece>, args: NameFormatArgs)
  {
    forall i :: 0 <= i < |ps| && ps[i].Hole? ==> BraceFree(Expansion(ps[i].field, ps[i].decoration, args))
  }

  /** The pieces once every placeholder has been replaced by its expansion. */
  function Expanded(ps: seq<Piece>, args: NameFormatArgs): (r: seq<Piece>)
    ensures |r| == |ps|
    ensures forall i :: 0 <= i < |ps| ==> r[i] == match ps[i]
      case Lit(_) => ps[i]
      case Hole(f, d) => Lit(Expansion(f, d, args))
  {
    seq(|ps|, i requires 0 <= i < |ps| => match ps[i]
      case Lit(_) => ps[i]
      case Hole(f, d) => Lit(Expansion(f, d, args)))
  }

  /** The pieces after the steps 0..hi-1: the placeholders whose step has run are expanded. */
  function Filled(ps: seq<Piece>, args: NameFormatArgs, hi: nat): (r: seq<Piece>)
    ensures |r| == |ps|
    ensures forall i :: 0 <= i < |ps| ==> r[i] == match ps[i]
      case Lit(_) => ps[i]
      case Hole(f, d) => if StepIndex(f, d) < hi then Lit(Expansion(f, d, args)) else ps[i]
  {
    seq(|ps|, i requires 0 <= i < |ps| => match ps[i]
      case Lit(_) => ps[i]
      case Hole(f, d) => if StepIndex(f, d) < hi then Lit(Expansion(f, d, args)) else ps[i])
  }

  /** The pieces with every Hole(g, e) turned into the literal `rep`. */
  function Substituted(ps: seq<Piece>, g: Field, e: Decoration, rep: string): (r: seq<Piece>)
    ensures |r| == |ps|
    ensures forall i :: 0 <= i < |ps| ==> r[i] == if ps[i] == Hole(g, e) then Lit(rep) else ps[i]
  {
    seq(|ps|, i requires 0 <= i < |ps| => if ps[i] == Hole(g, e) then Lit(rep) else ps[i])
  }

  lemma {:induction false} FlattenConcat(xs: seq<Piece>, ys: seq<Piece>)
    ensures Flatten(xs + ys) == Flatten(xs) + Flatten(ys)
    decreases |xs|
  {
    if |xs| == 0 {
      assert xs + ys == ys;
    } else {
      assert (xs + ys)[1..] == xs[1..] + ys;
      FlattenConcat(xs[1..], ys);
    }
  }

  /** Text without an opening brace never starts an occurrence of a placeholder. */
  lemma SkipBraceFree(a: string, t: string, q: string, rep: string)
    requires BraceFree(a) && Placeholder(q)
    ensures ReplaceAll(a + t, q, rep, IgnoreCase) == a + ReplaceAll(t, q, rep, IgnoreCase)
  {
    forall k | 0 <= k < |a| ensures !CharsEqual(a[k], q[0], IgnoreCase) {
      ToLowerNonLetter(a[k], '{');
    }
    ReplaceAllAfterPrefix(a, t, q, rep, IgnoreCase);
  }

  /** The searched placeholder at the front is replaced, and the search goes on after it. */
  lemma ReplaceOwnFront(q: string, tail: string, rep: string)
    requires Placeholder(q)
    ensures ReplaceAll(q + tail, q, rep, IgnoreCase) == rep + ReplaceAll(tail, q, rep, IgnoreCase)
  {
    assert StartsWith(q + tail, q, IgnoreCase);
    assert (q + tail)[|q|..] == tail;
  }

  /** A placeholder at the front that does not match is kept, and the search goes on after it. */
  lemma ReplaceOtherFront(t: string, tail: string, q: string, rep: string)
    requires Placeholder(t) && Placeholder(q) && !StartsWith(t + tail, q, IgnoreCase)
    ensures ReplaceAll(t + tail, q, rep, IgnoreCase) == t + ReplaceAll(tail, q, rep, IgnoreCase)
  {
    var inner := t[1..];
    assert (t + tail)[1..] == inner + tail;
    assert BraceFree(inner) by {
      forall k | 0 <= k < |inner| ensures inner[k] != '{' {
        assert inner[k] == t[k + 1];
      }
    }
    SkipBraceFree(inner, tail, q, rep);
    assert [t[0]] + (inner + ReplaceAll(tail, q, rep, IgnoreCase)) == t + ReplaceAll(tail, q, rep, IgnoreCase);
  }

  /** A placeholder at the front is replaced when it is the searched one and kept otherwise. */
  lemma ReplaceFrontHole(f: Field, d: Decoration, tail: string, g: Field, e: Decoration, rep: string)
    ensures ReplaceAll(Token(f, d) + tail, Token(g, e), rep, IgnoreCase)
      == (if f == g && d == e then rep else Token(f, d)) + ReplaceAll(tail, Token(g, e), rep, IgnoreCase)
  {
    TokenShape(g, e);
    if f == g && d == e {
      ReplaceOwnFront(Token(g, e), tail, rep);
    } else {
      TokenShape(f, d);
      TokenMatchSame(f, d, g, e, tail, IgnoreCase);
      ReplaceOtherFront(Token(f, d), tail, Token(g, e), rep);
    }
  }

  /**
   * One replace step over a pattern made of pieces: exactly the pieces that
   * are the searched placeholder become the replacement, whatever it holds.
   */
  lemma {:induction false} ReplaceInPieces(ps: seq<Piece>, g: Field, e: Decoration, rep: string)
    requires LiteralsBraceFree(ps)
    ensures ReplaceAll(Flatten(ps), Token(g, e), rep, IgnoreCase) == Flatten(Substituted(ps, g, e, rep))
    decreases |ps|
  {
    if |ps| > 0 {
      var rest := ps[1..];
      assert LiteralsBraceFree(rest) by {
        forall i | 0 <= i < |rest| && rest[i].Lit? ensures BraceFree(rest[i].text) {
          assert rest[i] == ps[i + 1];
        }
      }
      ReplaceInPieces(rest, g, e, rep);
      assert Substituted(ps, g, e, rep)[1..] == Substituted(rest, g, e, rep);
      match ps[0]
      case Lit(a) =>
        TokenShape(g, e);
        SkipBraceFree(a, Flatten(rest), Token(g, e), rep);
      case Hole(f, d) =>
        ReplaceFrontHole(f, d, Flatten(rest), g, e, rep);
    }
  }

  /** The steps 0..hi-1 over a pattern of pieces expand exactly the placeholders whose step has run. */
  lemma {:induction false} RunPieces(ps: seq<Piece>, args: NameFormatArgs, hi: nat)
    requires hi <= 16 && LiteralsBraceFree(ps) && ExpansionsBraceFree(ps, args)
    ensures Run(Flatten(ps), args, 0, hi) == Flatten(Filled(ps, args, hi))
    decreases hi
  {
    if hi == 0 {
      assert Filled(ps, args, 0) == ps;
    } else {
      RunPieces(ps, args, hi - 1);
      var k := hi - 1;
      var g, e := SlotField(k), SlotDecoration(k);
      var before := Filled(ps, args, k);
      assert LiteralsBraceFree(before);
      ReplaceInPieces(before, g, e, Expansion(g, e, args));
      forall i | 0 <= i < |ps|
        ensures Substituted(before, g, e, Expansion(g, e, args))[i] == Filled(ps, args, hi)[i]
      {
        if ps[i].Hole? {
          SlotIndex(k, ps[i].field, ps[i].decoration);
        }
      }
      assert Substituted(before, g, e, Expansion(g, e, args)) == Filled(ps, args, hi);
    }
  }

  /**
   * GetFormatedName on any pattern made of brace-free text and placeholders:
   * every placeholder becomes its expansion and the text between them is
   * kept, provided no expansion holds a brace.
   */
  lemma FormatPieces(ps: seq<Piece>, args: NameFormatArgs)
    requires LiteralsBraceFree(ps) && ExpansionsBraceFree(ps, args)
    ensures FormatPattern(Flatten(ps), args) == Flatten(Expanded(ps, args))
  {
    RunPieces(ps, args, 16);
    assert Filled(ps, args, 16) == Expanded(ps, args);
  }

  /** Joining piece lists keeps their literals brace-free, and only then. */
  lemma LiteralsConcat(xs: seq<Piece>, ys: seq<Piece>)
    ensures LiteralsBraceFree(xs + ys) <==> LiteralsBraceFree(xs) && LiteralsBraceFree(ys)
  {
    var zs := xs + ys;
    if LiteralsBraceFree(zs) {
      forall i | 0 <= i < |xs| && xs[i].Lit? ensures BraceFree(xs[i].text) {
        assert zs[i] == xs[i];
      }
      forall i | 0 <= i < |ys| && ys[i].Lit? ensures BraceFree(ys[i].text) {
        assert zs[|xs| + i] == ys[i];
      }
    }
    if LiteralsBraceFree(xs) && LiteralsBraceFree(ys) {
      forall i | 0 <= i < |zs| && zs[i].Lit? ensures BraceFree(zs[i].text) {
        if i >= |xs| { assert zs[i] == ys[i - |xs|]; }
      }
    }
  }

  /** Joining piece lists keeps their expansions brace-free, and only then. */
  lemma ExpansionsConcat(xs: seq<Piece>, ys: seq<Piece>, args: NameFormatArgs)
    ensures ExpansionsBraceFree(xs + ys, args) <==> ExpansionsBraceFree(xs, args) && ExpansionsBraceFree(ys, args)
  {
    var zs := xs + ys;
    if ExpansionsBraceFree(zs, args) {
      forall i | 0 <= i < |xs| && xs[i].Hole? ensures BraceFree(Expansion(xs[i].field, xs[i].decoration, args)) {
        assert zs[i] == xs[i];
      }
      forall i | 0 <= i < |ys| && ys[i].Hole? ensures BraceFree(Expansion(ys[i].field, ys[i].decoration, args)) {
        assert zs[|xs| + i] == ys[i];
      }
    }
    if ExpansionsBraceFree(xs, args) && ExpansionsBraceFree(ys, args) {
      forall i | 0 <= i < |zs| && zs[i].Hole? ensures BraceFree(Expansion(zs[i].field, zs[i].decoration, args)) {
        if i >= |xs| { assert zs[i] == ys[i - |xs|]; }
      }
    }
  }

  /** Joined piece lists expand piece by piece. */
  lemma ExpandedConcat(xs: seq<Piece>, ys: seq<Piece>, args: NameFormatArgs)
    ensures Expanded(xs + ys, args) == Expanded(xs, args) + Expanded(ys, args)
  {
  }

  /** Joining piece lists keeps literals and expansions brace-free, and expands piecewise. */
  lemma PiecesConcat(xs: seq<Piece>, ys: seq<Piece>, args: NameFormatArgs)
    ensures LiteralsBraceFree(xs + ys) <==> LiteralsBraceFree(xs) && LiteralsBraceFree(ys)
    ensures ExpansionsBraceFree(xs + ys, args) <==> ExpansionsBraceFree(xs, args) && ExpansionsBraceFree(ys, args)
    ensures Expanded(xs + ys, args) == Expanded(xs, args) + Expanded(ys, args)
  {
    LiteralsConcat(xs, ys);
    ExpansionsConcat(xs, ys, args);
    ExpandedConcat(xs, ys, args);
  }

  /** A single piece spells out as its own text. */
  lemma FlattenOne(p: Piece)
    ensures Flatten([p]) == Render(p)
  {
    assert [p][1..] == [];
    assert Render(p) + "" == Render(p);
  }

  /** The pieces before and after one placeholder, joined. */
  lemma SplitAround(pre: seq<Piece>, f: Field, d: Decoration, post: seq<Piece>, args: NameFormatArgs)
    requires LiteralsBraceFree(pre) && LiteralsBraceFree(post)
    requires ExpansionsBraceFree(pre, args) && ExpansionsBraceFree(post, args)
    requires BraceFree(Expansion(f, d, args))
    ensures FormatPattern(Flatten(pre) + Token(f, d) + Flatten(post), args)
      == FormatPattern(Flatten(pre), args) + Expansion(f, d, args) + FormatPattern(Flatten(post), args)
  {
    var e := Expansion(f, d, args);
    var ps := pre + [Hole(f, d)] + post;
    FlattenAround(pre, Hole(f, d), post);
    PiecesConcat(pre, [Hole(f, d)], args);
    PiecesConcat(pre + [Hole(f, d)], post, args);
    assert Expanded([Hole(f, d)], args) == [Lit(e)];
    FormatPieces(ps, args);
    FormatPieces(pre, args);
    FormatPieces(post, args);
    FlattenAround(Expanded(pre, args), Lit(e), Expanded(post, args));
  }

  /** The text of pieces around one piece. */
  lemma FlattenAround(xs: seq<Piece>, p: Piece, ys: seq<Piece>)
    ensures Flatten(xs + [p] + ys) == Flatten(xs) + Render(p) + Flatten(ys)
  {
    FlattenConcat(xs, [p]);
    FlattenConcat(xs + [p], ys);
    FlattenOne(p);
  }

  /**
   * An unset ModelId or Color placeholder is deleted outright, decoration
   * underscores included, wherever it stands among other placeholders: the
   * name is the names of the text before it and after it, joined.
   */
  lemma UnsetVanishes(pre: seq<Piece>, f: Field, d: Decoration, post: seq<Piece>, args: NameFormatArgs)
    requires LiteralsBraceFree(pre) && LiteralsBraceFree(post)
    requires ExpansionsBraceFree(pre, args) && ExpansionsBraceFree(post, args)
    requires FieldValue(f, args) == None
    ensures FormatPattern(Flatten(pre) + Token(f, d) + Flatten(post), args)
      == FormatPattern(Flatten(pre), args) + FormatPattern(Flatten(post), args)
  {
    assert Expansion(f, d, args) == "";
    SplitAround(pre, f, d, post, args);
    assert FormatPattern(Flatten(pre), args) + "" == FormatPattern(Flatten(pre), args);
  }

  /** The pieces with every placeholder of field `f` erased. */
  function Without(ps: seq<Piece>, f: Field): (r: seq<Piece>)
    ensures |r| == |ps|
    ensures forall i :: 0 <= i < |ps| ==> r[i] == if ps[i].Hole? && ps[i].field == f then Lit("") else ps[i]
  {
    seq(|ps|, i requires 0 <= i < |ps| => if ps[i].Hole? && ps[i].field == f then Lit("") else ps[i])
  }

  /**
   * All placeholders of an unset ModelId or Color vanish at once: the name is
   * the one the pattern would give with those placeholders erased.
   */
  lemma AllUnsetVanish(ps: seq<Piece>, f: Field, args: NameFormatArgs)
    requires LiteralsBraceFree(ps) && ExpansionsBraceFree(ps, args)
    requires FieldValue(f, args) == None
    ensures FormatPattern(Flatten(ps), args) == FormatPattern(Flatten(Without(ps, f)), args)
  {
    var w := Without(ps, f);
    WithoutExpanded(ps, f, args);
    FormatPieces(ps, args);
    FormatPieces(w, args);
  }

  /** Dropping the placeholders of an unset field keeps the pieces ready, and expands to the same literals. */
  lemma WithoutExpanded(ps: seq<Piece>, f: Field, args: NameFormatArgs)
    requires LiteralsBraceFree(ps) && ExpansionsBraceFree(ps, args)
    requires FieldValue(f, args) == None
    ensures LiteralsBraceFree(Without(ps, f)) && ExpansionsBraceFree(Without(ps, f), args)
    ensures Expanded(ps, args) == Expanded(Without(ps, f), args)
  {
    var w := Without(ps, f);
    forall i | 0 <= i < |ps|
      ensures Expanded(ps, args)[i] == Expanded(w, args)[i]
    {
      if ps[i].Hole? && ps[i].field == f {
        assert Expansion(f, ps[i].decoration, args) == "";
      }
    }
    assert BraceFree("");
  }

  /**
   * A placeholder whose field is set becomes the value with the decoration's
   * underscores, even when the value is empty, wherever it stands among
   * other placeholders.
   */
  lemma SetPlaceholder(pre: seq<Piece>, f: Field, d: Decoration, post: seq<Piece>, args: NameFormatArgs, v: string)
    requires LiteralsBraceFree(pre) && LiteralsBraceFree(post)
    requires ExpansionsBraceFree(pre, args) && ExpansionsBraceFree(post, args)
    requires BraceFree(v) && FieldValue(f, args) == Some(v)
    ensures FormatPattern(Flatten(pre) + Token(f, d) + Flatten(post), args)
      == FormatPattern(Flatten(pre), args) + Lead(d) + v + Trail(d) + FormatPattern(Flatten(post), args)
  {
    var l, t := Lead(d), Trail(d);
    assert Expansion(f, d, args) == l + v + t;
    assert BraceFree(l) && BraceFree(t);
    BraceFreeConcat(l, v, t);
    SplitAround(pre, f, d, post, args);
    Regroup5(FormatPattern(Flatten(pre), args), l, v, t, FormatPattern(Flatten(post), args));
  }

  lemma Regroup5(a: string, l: string, v: string, t: string, b: string)
    ensures a + (l + v + t) + b == a + l + v + t + b
  {
  }

  /**
   * A non-negative ModelId or Color n, wherever it stands: {X} gives dec(n),
   * {_X} "_" + dec(n), {X_} dec(n) + "_", {_X_} "_" + dec(n) + "_".
   */
  lemma NumberPlaceholder(pre: seq<Piece>, f: Field, d: Decoration, post: seq<Piece>, args: NameFormatArgs, n: int)
    requires LiteralsBraceFree(pre) && LiteralsBraceFree(post)
    requires ExpansionsBraceFree(pre, args) && ExpansionsBraceFree(post, args)
    requires (f == ModelId && n == args.modelId) || (f == Color && n == args.color)
    requires n >= 0
    ensures FormatPattern(Flatten(pre) + Token(f, d) + Flatten(post), args)
      == FormatPattern(Flatten(pre), args) + Lead(d) + FromInt(n) + Trail(d) + FormatPattern(Flatten(post), args)
  {
    FromIntDecimal(n);
    assert BraceFree(FromInt(n));
    SetPlaceholder(pre, f, d, post, args, FromInt(n));
  }

  /** Three pieces spell out as their texts in order. */
  lemma FlattenThree(p: Piece, q: Piece, r: Piece)
    ensures Flatten([p, q, r]) == Render(p) + Render(q) + Render(r)
  {
    var ps := [p, q, r];
    assert ps[1..] == [q, r];
    assert ps[1..][1..] == [r];
    FlattenOne(r);
  }

  /** The pieces of the pattern "MI_{BaseName}{_Color}". */
  lemma InstancePatternPieces()
    ensures Flatten([Lit("MI_"), Hole(BaseName, Plain), Hole(Color, Pre)]) == "MI_{BaseName}{_Color}"
  {
    FlattenThree(Lit("MI_"), Hole(BaseName, Plain), Hole(Color, Pre));
    PlainTokens();
    PreTokens();
  }

  /**
   * Two placeholders in one pattern: "MI_{BaseName}{_Color}" gives
   * "MI_" + the base name, followed by "_" + dec(Color) only when Color is set.
   */
  lemma InstancePatternExample(args: NameFormatArgs)
    requires BraceFree(args.baseName)
    ensures FormatPattern("MI_{BaseName}{_Color}", args)
      == "MI_" + args.baseName + (if args.color >= 0 then "_" + FromInt(args.color) else "")
  {
    var ps := [Lit("MI_"), Hole(BaseName, Plain), Hole(Color, Pre)];
    InstancePatternPieces();
    InstancePatternExpanded(args);
    FormatPieces(ps, args);
    FlattenThree(Lit("MI_"), Lit(Expansion(BaseName, Plain, args)), Lit(Expansion(Color, Pre, args)));
    PlainExpansions(args);
    PreExpansions(args);
  }

  /** The pieces of "MI_{BaseName}{_Color}" meet FormatPieces' conditions, and expand to three literals. */
  lemma InstancePatternExpanded(args: NameFormatArgs)
    requires BraceFree(args.baseName)
    ensures var ps := [Lit("MI_"), Hole(BaseName, Plain), Hole(Color, Pre)];
      && LiteralsBraceFree(ps) && ExpansionsBraceFree(ps, args)
      && Expanded(ps, args) == [Lit("MI_"), Lit(Expansion(BaseName, Plain, args)), Lit(Expansion(Color, Pre, args))]
  {
    var ps := [Lit("MI_"), Hole(BaseName, Plain), Hole(Color, Pre)];
    PlainExpansions(args);
    NumberExpansionBraceFree(Color, Pre, args);
    assert LiteralsBraceFree(ps);
    assert ExpansionsBraceFree(ps, args);
  }

  /** Brace-free text alone is a pattern of one literal piece, and its own name. */
  lemma LiteralAlone(a: string, args: NameFormatArgs)
    requires BraceFree(a)
    ensures Flatten([Lit(a)]) == a && LiteralsBraceFree([Lit(a)]) && ExpansionsBraceFree([Lit(a)], args)
    ensures FormatPattern(a, args) == a
  {
    var ps := [Lit(a)];
    FlattenOne(Lit(a));
    assert LiteralsBraceFree(ps);
    assert ExpansionsBraceFree(ps, args);
    FormatPieces(ps, args);
    assert Expanded(ps, args) == ps;
  }

  /** On the source's spelling: "{_ModelId_}" with no model id leaves no trace ... */
  lemma UnsetModelIdExample(a: string, b: string, args: NameFormatArgs)
    requires BraceFree(a) && BraceFree(b) && args.modelId < 0
    ensures FormatPattern(a + "{_ModelId_}" + b, args) == a + b
  {
    LiteralAlone(a, args);
    LiteralAlone(b, args);
    UnsetVanishes([Lit(a)], ModelId, Both, [Lit(b)], args);
    BothTokens();
  }

  /** The decorated Color expansion for colour 3. */
  lemma ColorThreeExpansion(args: NameFormatArgs)
    requires args.color == 3
    ensures Expansion(Color, Pre, args) == "_3"
  {
    assert FromInt(3) == "3";
  }

  /** ... "{_Color}" with colour 3 gives "_3" ... */
  lemma ColorSuffixExample(a: string, b: string, args: NameFormatArgs)
    requires BraceFree(a) && BraceFree(b) && args.color == 3
    ensures FormatPattern(a + "{_Color}" + b, args) == a + "_3" + b
  {
    NumberExpansionBraceFree(Color, Pre, args);
    FormatIsolated(a, Color, Pre, b, args);
    ColorThreeExpansion(args);
    PreTokens();
  }

  /** The decorated Description expansion for an empty description. */
  lemma EmptyDescriptionExpansion(args: NameFormatArgs)
    requires args.description == ""
    ensures Expansion(Description, Both, args) == "__"
  {
  }

  /** ... and "{_Description_}" with an empty description still gives "__". */
  lemma EmptyDescriptionExample(a: string, b: string, args: NameFormatArgs)
    requires BraceFree(a) && BraceFree(b) && args.description == ""
    ensures FormatPattern(a + "{_Description_}" + b, args) == a + "__" + b
  {
    EmptyDescriptionExpansion(args);
    BraceFreeConcat("_", "", "_");
    FormatIsolated(a, Description, Both, b, args);
    BothTokens();
  }

  // ---------------------------------------------------------------------------
  // Text without placeholders, and the order of the steps
  // ---------------------------------------------------------------------------

  /** No placeholder occurs anywhere in `s`, in any letter case. */
  predicate NoPlaceholder(s: string)
  {
    forall f: Field, d: Decoration, i :: 0 <= i < |s| ==> !StartsWith(s[i..], Token(f, d), IgnoreCase)
  }

  lemma BraceFreeNoPlaceholder(s: string)
    requires BraceFree(s)
    ensures NoPlaceholder(s)
  {
    forall f: Field, d: Decoration, i | 0 <= i < |s| ensures !StartsWith(s[i..], Token(f, d), IgnoreCase) {
      TokenShape(f, d);
      ToLowerNonLetter(s[i], '{');
      assert s[i..][0] == s[i];
    }
  }

  /** Steps over text without placeholders change nothing. */
  lemma {:induction false} RunUnchanged(s: string, args: NameFormatArgs, lo: nat, hi: nat)
    requires lo <= hi <= 16 && NoPlaceholder(s)
    ensures Run(s, args, lo, hi) == s
    decreases hi
  {
    if hi > lo {
      RunUnchanged(s, args, lo, hi - 1);
      var f, d := SlotField(hi - 1), SlotDecoration(hi - 1);
      ReplaceAllAbsent(s, Token(f, d), Expansion(f, d, args), IgnoreCase);
    }
  }

  /** A pattern without placeholders is the name itself. */
  lemma FormatWithoutPlaceholders(pattern: string, args: NameFormatArgs)
    requires NoPlaceholder(pattern)
    ensures FormatPattern(pattern, args) == pattern
  {
    RunUnchanged(pattern, args, 0, 16);
  }

  /** Running steps lo..hi-1 is running lo..mid-1 and then mid..hi-1. */
  lemma {:induction false} RunSplit(s: string, args: NameFormatArgs, lo: nat, mid: nat, hi: nat)
    requires lo <= mid <= hi <= 16
    ensures Run(s, args, lo, hi) == Run(Run(s, args, lo, mid), args, mid, hi)
    decreases hi
  {
    if hi > mid {
      RunSplit(s, args, lo, mid, hi - 1);
    }
  }

  /** `x` is `v` with empty text on either side. */
  lemma Unwrap(x: string, v: string)
    requires x == "" + v + ""
    ensures x == v
  {
    assert "" + v + "" == v;
  }

  /** Steps that are not a placeholder's own leave it, standing alone, as it is. */
  lemma RunAloneKept(f: Field, d: Decoration, args: NameFormatArgs, lo: nat, hi: nat)
    requires lo <= hi <= 16 && !(lo <= StepIndex(f, d) < hi)
    ensures Run(Token(f, d), args, lo, hi) == Token(f, d)
  {
    var t := Token(f, d);
    assert "" + t + "" == t;
    RunIsolated("", f, d, "", args, lo, hi);
    Unwrap(Run("" + t + "", args, lo, hi), t);
  }

  /** A placeholder standing alone becomes its expansion once its own step is among those run. */
  lemma RunAloneExpanded(f: Field, d: Decoration, args: NameFormatArgs, lo: nat, hi: nat)
    requires lo <= StepIndex(f, d) < hi <= 16 && BraceFree(Expansion(f, d, args))
    ensures Run(Token(f, d), args, lo, hi) == Expansion(f, d, args)
  {
    var t := Token(f, d);
    assert "" + t + "" == t;
    RunIsolated("", f, d, "", args, lo, hi);
    Unwrap(Run("" + t + "", args, lo, hi), Expansion(f, d, args));
  }

  /** A placeholder's own step replaces it by its expansion, whatever that holds. */
  lemma OwnStep(f: Field, d: Decoration, args: NameFormatArgs)
    ensures Run(Token(f, d), args, StepIndex(f, d), StepIndex(f, d) + 1) == Expansion(f, d, args)
  {
    var k, t := StepIndex(f, d), Token(f, d);
    SlotIndex(k, f, d);
    TokenShape(f, d);
    assert "" + t + "" == t;
    ReplaceOwn("", t, "", Expansion(f, d, args));
    assert Run(t, args, k, k + 1) == ReplaceAll(t, t, Expansion(f, d, args), IgnoreCase);
    Unwrap(ReplaceAll("" + t + "", t, Expansion(f, d, args), IgnoreCase), Expansion(f, d, args));
  }

  /** An undecorated placeholder that is set expands to its bare value. */
  lemma PlainValue(f: Field, args: NameFormatArgs)
    requires FieldValue(f, args).Some?
    ensures Expansion(f, Plain, args) == FieldValue(f, args).value
  {
    assert "" + FieldValue(f, args).value + "" == FieldValue(f, args).value;
  }

  /**
   * Placeholders are replaced in a fixed order and replacements are searched
   * by the later steps: a base name that is a Color placeholder turns into
   * the colour number.
   */
  lemma LaterStepRewritesEarlierValue(args: NameFormatArgs)
    requires args.baseName == Token(Color, Plain) && args.color >= 0
    ensures FormatPattern(Token(BaseName, Plain), args) == FromInt(args.color)
  {
    var p := Token(BaseName, Plain);
    calc {
      FormatPattern(p, args);
    == { RunSplit(p, args, 0, 1, 16); }
      Run(Run(p, args, 0, 1), args, 1, 16);
    == { OwnStep(BaseName, Plain, args); assert StepIndex(BaseName, Plain) == 0; }
      Run(Expansion(BaseName, Plain, args), args, 1, 16);
    == { PlainValue(BaseName, args); }
      Run(Token(Color, Plain), args, 1, 16);
    == { NumberExpansionBraceFree(Color, Plain, args); RunAloneExpanded(Color, Plain, args, 1, 16); }
      Expansion(Color, Plain, args);
    == { PlainValue(Color, args); }
      FromInt(args.color);
    }
  }

  /** The same on the source's spelling: base name "{Color}", pattern "{BaseName}". */
  lemma LaterStepExample(args: NameFormatArgs)
    requires args.baseName == "{Color}" && args.color >= 0
    ensures FormatPattern("{BaseName}", args) == FromInt(args.color)
  {
    PlainTokens();
    LaterStepRewritesEarlierValue(args);
  }

  /**
   * ... but no step is run again: a description that is a BaseName
   * placeholder stays as it is, since the BaseName step has already run.
   */
  lemma EarlierStepDoesNotSeeLaterValue(args: NameFormatArgs)
    requires args.description == Token(BaseName, Plain)
    ensures FormatPattern(Token(Description, Plain), args) == Token(BaseName, Plain)
  {
    var p := Token(Description, Plain);
    calc {
      FormatPattern(p, args);
    == { RunSplit(p, args, 0, 3, 16); }
      Run(Run(p, args, 0, 3), args, 3, 16);
    == { RunAloneKept(Description, Plain, args, 0, 3); }
      Run(p, args, 3, 16);
    == { RunSplit(p, args, 3, 4, 16); }
      Run(Run(p, args, 3, 4), args, 4, 16);
    == { OwnStep(Description, Plain, args); assert StepIndex(Description, Plain) == 3; }
      Run(Expansion(Description, Plain, args), args, 4, 16);
    == { PlainValue(Description, args); }
      Run(Token(BaseName, Plain), args, 4, 16);
    == { RunAloneKept(BaseName, Plain, args, 4, 16); }
      Token(BaseName, Plain);
    }
  }

  /** The same on the source's spelling: description "{BaseName}", pattern "{Description}". */
  lemma EarlierStepExample(args: NameFormatArgs)
    requires args.description == "{BaseName}"
    ensures FormatPattern("{Description}", args) == "{BaseName}"
  {
    PlainTokens();
    EarlierStepDoesNotSeeLaterValue(args);
  }

  /** The BaseName step finds "{basename}" too, since it ignores case. */
  lemma LowerCaseMatch(v: string)
    ensures ReplaceAll("{basename}", Token(BaseName, Plain), v, IgnoreCase) == v
  {
    PlainTokens();
    var p := "{basename}";
    assert StartsWith(p, Token(BaseName, Plain), IgnoreCase);
    assert p[|Token(BaseName, Plain)|..] == "";
    assert v + "" == v;
  }

  /** Placeholders are found in any letter case: "{basename}" works like "{BaseName}". */
  lemma AnyCasePlaceholder(args: NameFormatArgs)
    requires BraceFree(args.baseName)
    ensures FormatPattern("{basename}", args) == args.baseName
  {
    var p := "{basename}";
    RunSplit(p, args, 0, 1, 16);
    PlainExpansions(args);
    LowerCaseMatch(args.baseName);
    assert Run(p, args, 0, 1) == args.baseName;
    BraceFreeNoPlaceholder(args.baseName);
    RunUnchanged(args.baseName, args, 1, 16);
  }


  /** The fallback pattern "{BaseName}" yields the base name itself when that holds no placeholder. */
  lemma BaseNameAlone(args: NameFormatArgs)
    requires NoPlaceholder(args.baseName)
    ensures FormatPattern(Token(BaseName, Plain), args) == args.baseName
  {
    var p := Token(BaseName, Plain);
    calc {
      FormatPattern(p, args);
    == { RunSplit(p, args, 0, 1, 16); }
      Run(Run(p, args, 0, 1), args, 1, 16);
    == { OwnStep(BaseName, Plain, args); assert StepIndex(BaseName, Plain) == 0; }
      Run(Expansion(BaseName, Plain, args), args, 1, 16);
    == { PlainValue(BaseName, args); }
      Run(args.baseName, args, 1, 16);
    == { RunUnchanged(args.baseName, args, 1, 16); }
      args.baseName;
    }
  }

  // ---------------------------------------------------------------------------
  // GetPattern and GetFormatedName
  // ---------------------------------------------------------------------------

  function TypeName(t: FormaterObjectType): string
  {
    match t
    case Material => "Material"
    case MaterialInstance => "MaterialInstance"
    case Texture => "Texture"
    case StaticMesh => "StaticMesh"
    case Voxel => "Voxel"
  }

  function ConventionName(c: NamingConvention): string
  {
    match c
    case UnrealEngine => "UnrealEngine"
    case VOX4U => "VOX4U"
  }

  /** The naming-table row for a kind of asset and a convention, e.g. "MaterialInstanceVOX4U". */
  function RowName(t: FormaterObjectType, c: NamingConvention): string
  {
    TypeName(t) + ConventionName(c)
  }

  /**
   * The loaded naming table: row name to pattern. Row names are FNames, which
   * compare without regard to letter case, so the map is keyed by the
   * lower-cased row name. None stands for a table that failed to load.
   */
  type NamingTable = map<string, string>

  /** GetPattern: the row's pattern, or "{BaseName}" when the table or the row is missing. */
  function GetPattern(table: Option<NamingTable>, t: FormaterObjectType, c: NamingConvention): (p: string)
    ensures table.None? ==> p == "{BaseName}"
    ensures table.Some? && ToLowerString(RowName(t, c)) !in table.value ==> p == "{BaseName}"
    ensures table.Some? && ToLowerString(RowName(t, c)) in table.value ==> p == table.value[ToLowerString(RowName(t, c))]
  {
    match table
    case None => "{BaseName}"
    case Some(rows) =>
      var key := ToLowerString(RowName(t, c));
      if key in rows then rows[key] else "{BaseName}"
  }

  /** The name GetFormatedName gives. */
  function FormattedName(table: Option<NamingTable>, t: FormaterObjectType, args: NameFormatArgs, c: NamingConvention): string
  {
    FormatPattern(GetPattern(table, t, c), args)
  }

  /** GetFormatedName: the pattern for the kind of asset, filled in with `args`. */
  method GetFormatedName(table: Option<NamingTable>, t: FormaterObjectType, args: NameFormatArgs, c: NamingConvention)
    returns (name: string)
    ensures name == FormattedName(table, t, args, c)
  {
    name := ApplyPattern(GetPattern(table, t, c), args);
  }

  lemma TypeNameLength(t: FormaterObjectType)
    ensures |TypeName(t)| == match t
      case Material => 8
      case MaterialInstance => 16
      case Texture => 7
      case StaticMesh => 10
      case Voxel => 5
  {
  }

  /** A row name ends in 'e' for UnrealEngine and in 'U' for VOX4U. */
  lemma RowNameEnd(t: FormaterObjectType, c: NamingConvention)
    ensures |RowName(t, c)| == |TypeName(t)| + if c == UnrealEngine then 12 else 5
    ensures RowName(t, c)[|RowName(t, c)| - 1] == if c == UnrealEngine then 'e' else 'U'
  {
    var r := RowName(t, c);
    assert r[|r| - 1] == ConventionName(c)[|ConventionName(c)| - 1];
  }

  /**
   * The ten rows are told apart even without regard to case: the last letter
   * gives the convention, the length then gives the kind of asset.
   */
  lemma RowNamesDistinct(t1: FormaterObjectType, c1: NamingConvention, t2: FormaterObjectType, c2: NamingConvention)
    ensures ToLowerString(RowName(t1, c1)) == ToLowerString(RowName(t2, c2)) <==> t1 == t2 && c1 == c2
  {
    var r1, r2 := RowName(t1, c1), RowName(t2, c2);
    if ToLowerString(r1) == ToLowerString(r2) {
      RowNameEnd(t1, c1);
      RowNameEnd(t2, c2);
      assert ToLowerString(r1)[|r1| - 1] == ToLower(r1[|r1| - 1]);
      assert ToLowerString(r2)[|r2| - 1] == ToLower(r2[|r2| - 1]);
      TypeNameLength(t1);
      TypeNameLength(t2);
    }
  }

  /**
   * Without a table, or without the row, the name is the base name itself,
   * provided the base name holds no placeholder.
   */
  lemma FallbackName(table: Option<NamingTable>, t: FormaterObjectType, args: NameFormatArgs, c: NamingConvention)
    requires table.None? || ToLowerString(RowName(t, c)) !in table.value
    requires NoPlaceholder(args.baseName)
    ensures FormattedName(table, t, args, c) == args.baseName
  {
    PlainTokens();
    BaseNameAlone(args);
  }
}
