/**
  The text-line serialiser of Exporter.js: an object that accumulates output
  lines, switches a comment mode on and off, keeps an indentation level, and
  writes a prepared list of layers as a block of code lines per layer,
  bracketed by BEGIN/END comments.

  `code(vertex)` formats floating-point coordinates in the source and is a
  parameter here (`code`); so is the per-vertex shift a subclass applies in
  `transformVertices` (`transform`).
*/
module LineBuilder {
  import opened JsText

  /** One `layer.code` entry: text to emit before and after the layer's vertices. */
  datatype CodeBlock = CodeBlock(pre: string, post: string)

  /**
    An exporter's `pre` or `post` property: a text, or `undefined` when the
    props carry none (the transfer panel passes neither).
  */
  datatype PropText = Undefined | Defined(text: string)

  /** `this.pre !== ""`: an undefined property differs from the empty text. */
  predicate Emits(t: PropText)
  {
    t != Defined("")
  }

  /** What `line(t, ...)` writes for the property: `undefined` falls back to the default `""`. */
  function ContentOf(t: PropText): string
  {
    match t
    case Undefined => ""
    case Defined(text) => text
  }

  /** A layer as the exporter sees it; `kind` is the source's `layer.type`. */
  datatype Layer<V> = Layer(name: string, kind: string, index: nat, vertices: seq<V>, code: seq<CodeBlock>)

  // ---------------------------------------------------------------------------
  // Pure pieces

  /** Position of the first `c` in `s`, or `|s|` when there is none. */
  function IndexOf(s: string, c: char): (k: nat)
    ensures k <= |s| && c !in s[..k]
    ensures k < |s| <==> c in s
    ensures k < |s| ==> s[k] == c
  {
    if s == [] then 0
    else if s[0] == c then 0
    else assert s[1..][..IndexOf(s[1..], c)] == s[1..IndexOf(s[1..], c) + 1];
         IndexOf(s[1..], c) + 1
  }

  /**
    `value.replace("\n", " ")`: a string pattern, so only the FIRST line feed
    becomes a space and every other character is kept.
  */
  function SanitizeValue(value: string): (r: string)
    ensures |r| == |value|
  {
    if value == [] then []
    else if value[0] == '\n' then " " + value[1..]
    else [value[0]] + SanitizeValue(value[1..])
  }

  /** Only the first line feed is replaced; a value without one is kept as it is. */
  lemma {:induction false} SanitizeValueReplacesFirst(value: string)
    ensures var k := IndexOf(value, '\n');
            SanitizeValue(value) == if k < |value| then value[..k] + " " + value[k + 1..] else value
  {
    if value != [] && value[0] != '\n' {
      var rest := value[1..];
      SanitizeValueReplacesFirst(rest);
      assert value == [value[0]] + rest;
      if IndexOf(rest, '\n') < |rest| {
        Spliced(value[0], rest, IndexOf(rest, '\n'));
      }
    }
  }

  /** Putting a character in front of a string with one position replaced. */
  lemma Spliced(c: char, rest: string, k: nat)
    requires k < |rest|
    ensures [c] + (rest[..k] + " " + rest[k + 1..]) == ([c] + rest)[..k + 1] + " " + ([c] + rest)[k + 2..]
  {
    assert ([c] + rest)[..k + 1] == [c] + rest[..k];
    assert ([c] + rest)[k + 2..] == rest[k + 1..];
  }

  /** The padding of `indentLevel` levels: two spaces per level, none for a level at or below zero. */
  function Indentation(level: int): (r: string)
    ensures |r| == if level <= 0 then 0 else 2 * level
    ensures forall i :: 0 <= i < |r| ==> r[i] == ' '
  {
    if level <= 0 then "" else Indentation(level - 1) + "  "
  }

  /** The entry `line(content, true, sanitize)` appends in the given mode. */
  function Rendered(commenting: bool, commentChar: string, indentLevel: int, content: string, sanitize: bool): string
  {
    var padding := if commenting
                   then commentChar + (if |content| > 0 then " " else "") + Indentation(indentLevel)
                   else "";
    padding + (if sanitize then SanitizeValue(content) else content)
  }

  /** Outside comment mode an entry carries no padding. */
  lemma RenderedPlain(commentChar: string, indentLevel: int, content: string, sanitize: bool)
    ensures Rendered(false, commentChar, indentLevel, content, sanitize) == if sanitize then SanitizeValue(content) else content
  {
    assert "" + content == content;
    assert "" + SanitizeValue(content) == SanitizeValue(content);
  }

  /** The line `comment(text)` emits. */
  function CommentLine(commentChar: string, indentLevel: int, text: string): string
  {
    Rendered(true, commentChar, indentLevel, text, true)
  }

  /**
    Outside comment mode an entry is the (sanitized) content itself; in
    comment mode it is the comment character, one space when the content is
    non-empty, two spaces per indentation level and then the content.
  */
  lemma RenderedLayout(commenting: bool, commentChar: string, indentLevel: int, content: string, sanitize: bool)
    ensures var r := Rendered(commenting, commentChar, indentLevel, content, sanitize);
            var body := if sanitize then SanitizeValue(content) else content;
            var pad := (if commenting then |commentChar| + (if |content| > 0 then 1 else 0) + (if indentLevel <= 0 then 0 else 2 * indentLevel) else 0);
            && |r| == pad + |content|
            && r[pad..] == body
            && (commenting ==> r[..|commentChar|] == commentChar)
            && (forall i :: (if commenting then |commentChar| else 0) <= i < pad ==> r[i] == ' ')
  {
  }

  /** Decimal text of a layer index, as a template literal renders a non-negative integer. */
  function NatToString(n: nat): (r: string)
    ensures |r| >= 1 && (forall i :: 0 <= i < |r| ==> '0' <= r[i] <= '9')
    ensures r[0] == '0' ==> n == 0 && |r| == 1
  {
    if n < 10 then [Digit(n)] else NatToString(n / 10) + [Digit(n % 10)]
  }

  function Digit(d: nat): (c: char)
    requires d < 10
    ensures '0' <= c <= '9' && c as int - '0' as int == d
  {
    ('0' as int + d) as char
  }

  /** Reads a string of decimal digits back as a number. */
  function ParseNat(s: string): nat
    requires forall i :: 0 <= i < |s| ==> '0' <= s[i] <= '9'
  {
    if s == [] then 0 else 10 * ParseNat(s[..|s| - 1]) + (s[|s| - 1] as int - '0' as int)
  }

  lemma {:induction false} NatToStringRoundTrip(n: nat)
    ensures ParseNat(NatToString(n)) == n
  {
    if n >= 10 {
      var r := NatToString(n);
      assert r[..|r| - 1] == NatToString(n / 10);
      NatToStringRoundTrip(n / 10);
    }
  }

  /** The text of `actionComment(layer, action)`. */
  function ActionText<V>(layer: Layer<V>, action: string): string
  {
    action + " " + layer.kind + ": " + NatToString(layer.index) + (if layer.name != "" then " " + layer.name else "")
  }

  function ActionLine<V>(commentChar: string, indentLevel: int, layer: Layer<V>, action: string): string
  {
    CommentLine(commentChar, indentLevel, ActionText(layer, action))
  }

  /** `line(text, text !== "", false)`: the text verbatim when non-empty, nothing otherwise. */
  function IfNonEmpty(text: string): seq<string>
  {
    if text != "" then [text] else []
  }

  /** The lines a `layer.code.forEach` loop of `exportCode` emits: every non-empty `pre` (or `post`) text, in order. */
  function CodeTexts(blocks: seq<CodeBlock>, pres: bool): seq<string>
  {
    if blocks == [] then []
    else
      var last := blocks[|blocks| - 1];
      CodeTexts(blocks[..|blocks| - 1], pres) + IfNonEmpty(if pres then last.pre else last.post)
  }

  lemma CodeTextsOneMore(blocks: seq<CodeBlock>, pres: bool, j: nat)
    requires j < |blocks|
    ensures CodeTexts(blocks[..j + 1], pres)
         == CodeTexts(blocks[..j], pres) + IfNonEmpty(if pres then blocks[j].pre else blocks[j].post)
  {
    assert blocks[..j + 1][..j] == blocks[..j];
  }

  /** The lines the vertex loop of `exportCode` emits. */
  function VertexLines<V>(code: V -> string, vertices: seq<V>): seq<string>
  {
    if vertices == [] then []
    else VertexLines(code, vertices[..|vertices| - 1]) + [SanitizeValue(code(vertices[|vertices| - 1]))]
  }

  lemma {:induction false} VertexLinesAt<V>(code: V -> string, vertices: seq<V>)
    ensures |VertexLines(code, vertices)| == |vertices|
    ensures forall k :: 0 <= k < |vertices| ==> VertexLines(code, vertices)[k] == SanitizeValue(code(vertices[k]))
  {
    if vertices != [] {
      VertexLinesAt(code, vertices[..|vertices| - 1]);
    }
  }

  lemma VertexLinesOneMore<V>(code: V -> string, vertices: seq<V>, k: nat)
    requires k < |vertices|
    ensures VertexLines(code, vertices[..k + 1]) == VertexLines(code, vertices[..k]) + [SanitizeValue(code(vertices[k]))]
  {
    assert vertices[..k + 1][..k] == vertices[..k];
  }

  /** The blank line and, for a layer with code blocks, the bracketed `pre` texts, ahead of its vertices. */
  function LayerOpening<V>(commenting: bool, commentChar: string, indentLevel: int, layer: Layer<V>): seq<string>
  {
    var blank := Rendered(commenting, commentChar, indentLevel, "", true);
    if |layer.code| > 0
    then [blank, ActionLine(commentChar, indentLevel, layer, "BEGIN PRE")]
         + CodeTexts(layer.code, true)
         + [ActionLine(commentChar, indentLevel, layer, "END PRE"), ""]
    else [blank]
  }

  /** The vertex lines between the layer's BEGIN and END comments. */
  function LayerBody<V>(commentChar: string, indentLevel: int, code: V -> string, layer: Layer<V>): seq<string>
  {
    [ActionLine(commentChar, indentLevel, layer, "BEGIN")]
    + VertexLines(code, layer.vertices)
    + [ActionLine(commentChar, indentLevel, layer, "END")]
  }

  /** For a layer with code blocks, a blank line and the bracketed `post` texts after its vertices. */
  function LayerClosing<V>(commentChar: string, indentLevel: int, layer: Layer<V>): seq<string>
  {
    if |layer.code| > 0
    then ["", ActionLine(commentChar, indentLevel, layer, "BEGIN POST")]
         + CodeTexts(layer.code, false)
         + [ActionLine(commentChar, indentLevel, layer, "END POST")]
    else []
  }

  /**
    The lines `exportCode` emits for one layer; `commenting` is the mode in
    force when the layer starts, which only the leading blank line sees.
  */
  function LayerBlock<V>(commenting: bool, commentChar: string, indentLevel: int, code: V -> string, layer: Layer<V>): seq<string>
  {
    LayerOpening(commenting, commentChar, indentLevel, layer)
    + LayerBody(commentChar, indentLevel, code, layer)
    + LayerClosing(commentChar, indentLevel, layer)
  }

  function BlockOf<V>(commentChar: string, indentLevel: int, code: V -> string): (bool, Layer<V>) -> seq<string>
  {
    (first: bool, layer: Layer<V>) => LayerBlock(first, commentChar, indentLevel, code, layer)
  }

  /** The concatenation of `block` over `xs`, in order; only the first element sees `first`. */
  function Joined<T>(block: (bool, T) -> seq<string>, first: bool, xs: seq<T>): seq<string>
  {
    if xs == [] then [] else Joined(block, first, xs[..|xs| - 1]) + block(first && |xs| == 1, xs[|xs| - 1])
  }

  lemma {:induction false} JoinedAppend<T>(block: (bool, T) -> seq<string>, first: bool, front: seq<T>, back: seq<T>)
    ensures Joined(block, first, front + back) == Joined(block, first, front) + Joined(block, first && front == [], back)
    decreases |back|
  {
    if back == [] {
      assert front + back == front;
    } else {
      var all := front + back;
      assert all[..|all| - 1] == front + back[..|back| - 1];
      JoinedAppend(block, first, front, back[..|back| - 1]);
    }
  }

  /** The lines `exportCode` emits for a list of layers, in layer order. */
  function CodeLines<V>(commenting: bool, commentChar: string, indentLevel: int, code: V -> string, layers: seq<Layer<V>>): seq<string>
  {
    Joined(BlockOf(commentChar, indentLevel, code), commenting, layers)
  }

  /**
    Within a layer's block, its vertices' code lines come one per vertex, in
    vertex order, directly between the layer's BEGIN and END comments, which
    follow the opening lines.
  */
  lemma LayerBlockLayout<V>(commenting: bool, commentChar: string, indentLevel: int, code: V -> string, layer: Layer<V>)
    ensures var b := LayerBlock(commenting, commentChar, indentLevel, code, layer);
            var begin := |LayerOpening(commenting, commentChar, indentLevel, layer)|;
            var n := |layer.vertices|;
            && |b| == begin + n + 2 + |LayerClosing(commentChar, indentLevel, layer)|
            && b[begin] == ActionLine(commentChar, indentLevel, layer, "BEGIN")
            && (forall k :: 0 <= k < n ==> b[begin + 1 + k] == SanitizeValue(code(layer.vertices[k])))
            && b[begin + 1 + n] == ActionLine(commentChar, indentLevel, layer, "END")
  {
    var o := LayerOpening(commenting, commentChar, indentLevel, layer);
    var m := VertexLines(code, layer.vertices);
    var c := LayerClosing(commentChar, indentLevel, layer);
    VertexLinesAt(code, layer.vertices);
    BracketedAt(o, m, c, ActionLine(commentChar, indentLevel, layer, "BEGIN"), ActionLine(commentChar, indentLevel, layer, "END"));
  }

  /**
    A layer with code blocks opens with a blank line and BEGIN PRE, with the
    pre texts before END PRE and a blank line, and closes with a blank line,
    BEGIN POST, the post texts and END POST; one without opens with just the
    blank line and has nothing after its END.
  */
  lemma LayerBlockBrackets<V>(commenting: bool, commentChar: string, indentLevel: int, code: V -> string, layer: Layer<V>)
    ensures var o := LayerOpening(commenting, commentChar, indentLevel, layer);
            var c := LayerClosing(commentChar, indentLevel, layer);
            var b := LayerBlock(commenting, commentChar, indentLevel, code, layer);
            var pres := CodeTexts(layer.code, true);
            && b[0] == Rendered(commenting, commentChar, indentLevel, "", true)
            && (|layer.code| > 0 ==>
                  && |o| == 4 + |pres| && o[1] == ActionLine(commentChar, indentLevel, layer, "BEGIN PRE")
                  && o[2..2 + |pres|] == pres && o[2 + |pres|] == ActionLine(commentChar, indentLevel, layer, "END PRE")
                  && |c| >= 3 && b[|b| - 1] == ActionLine(commentChar, indentLevel, layer, "END POST")
                  && c == ["", ActionLine(commentChar, indentLevel, layer, "BEGIN POST")]
                          + CodeTexts(layer.code, false)
                          + [ActionLine(commentChar, indentLevel, layer, "END POST")])
            && (|layer.code| == 0 ==> |o| == 1 && c == [])
  {
    var o := LayerOpening(commenting, commentChar, indentLevel, layer);
    var c := LayerClosing(commentChar, indentLevel, layer);
    var rest := LayerBody(commentChar, indentLevel, code, layer) + c;
    assert LayerBlock(commenting, commentChar, indentLevel, code, layer) == o + rest;
    if |layer.code| > 0 {
      var pres := CodeTexts(layer.code, true);
      var blank := Rendered(commenting, commentChar, indentLevel, "", true);
      var bp := ActionLine(commentChar, indentLevel, layer, "BEGIN PRE");
      var ep := ActionLine(commentChar, indentLevel, layer, "END PRE");
      assert o == [blank, bp] + pres + [ep, ""];
      assert o[2..2 + |pres|] == pres;
      assert rest[|rest| - 1] == c[|c| - 1];
    }
  }

  /** Where the pieces of `o + ([a] + m + [z]) + c` sit. */
  lemma BracketedAt<T>(o: seq<T>, m: seq<T>, c: seq<T>, a: T, z: T)
    ensures var e := o + ([a] + m + [z]) + c;
            && |e| == |o| + |m| + 2 + |c|
            && (forall k :: 0 <= k < |o| ==> e[k] == o[k])
            && e[|o|] == a
            && (forall k :: 0 <= k < |m| ==> e[|o| + 1 + k] == m[k])
            && e[|o| + 1 + |m|] == z
            && (forall k :: 0 <= k < |c| ==> e[|o| + |m| + 2 + k] == c[k])
  {
  }

  /** Splitting the layer list splits the emitted lines the same way. */
  lemma CodeLinesAppend<V>(commenting: bool, commentChar: string, indentLevel: int, code: V -> string,
                           front: seq<Layer<V>>, back: seq<Layer<V>>)
    ensures CodeLines(commenting, commentChar, indentLevel, code, front + back)
         == CodeLines(commenting, commentChar, indentLevel, code, front)
            + CodeLines(commenting && front == [], commentChar, indentLevel, code, back)
  {
    JoinedAppend(BlockOf(commentChar, indentLevel, code), commenting, front, back);
  }

  lemma AppendAssociative<T>(a: seq<T>, b: seq<T>, c: seq<T>)
    ensures a + b + c == a + (b + c)
  {
  }

  /** Taking one more element of a sequence appends that element. */
  lemma TakeOneMore<T>(s: seq<T>, i: nat)
    requires i < |s|
    ensures s[..i + 1] == s[..i] + [s[i]]
  {
  }

  lemma CodeLinesSnoc<V>(commenting: bool, commentChar: string, indentLevel: int, code: V -> string,
                         layers: seq<Layer<V>>, layer: Layer<V>)
    ensures CodeLines(commenting, commentChar, indentLevel, code, layers + [layer])
         == CodeLines(commenting, commentChar, indentLevel, code, layers)
            + LayerBlock(commenting && |layers| == 0, commentChar, indentLevel, code, layer)
  {
    var block := BlockOf(commentChar, indentLevel, code);
    JoinedAppend(block, commenting, layers, [layer]);
    assert [layer][..0] == [];
    assert Joined(block, commenting && layers == [], [layer]) == block(commenting && layers == [], layer);
  }

  /**
    The bracketed block `export` emits for `pre` or `post`: nothing when it
    is the empty text, and the BEGIN comment, the text (an empty line when it
    is undefined) and the END comment otherwise.
  */
  function Bracketed(commentChar: string, indentLevel: int, begin: string, end: string, text: PropText): seq<string>
  {
    if Emits(text)
    then [CommentLine(commentChar, indentLevel, begin), ContentOf(text), CommentLine(commentChar, indentLevel, end)]
    else []
  }

  /** The four comment lines `export` opens with. */
  function Header(commentChar: string, indentLevel: int, fileName: string, fileType: string): seq<string>
  {
    [ CommentLine(commentChar, indentLevel, ""),
      CommentLine(commentChar, indentLevel, "File name: '" + fileName + "'"),
      CommentLine(commentChar, indentLevel, "File type: " + fileType),
      CommentLine(commentChar, indentLevel, "") ]
  }

  /**
    Everything `export` appends around `body`, the code lines of the
    prepared layers: the header, the pre block, the body, a blank line, the
    post block and a last blank line.
  */
  function ExportText(commentChar: string, indentLevel: int, pre: PropText, post: PropText,
                      fileName: string, fileType: string, body: seq<string>): seq<string>
  {
    Header(commentChar, indentLevel, fileName, fileType)
    + Bracketed(commentChar, indentLevel, "BEGIN PRE", "END PRE", pre)
    + body
    + [""]
    + Bracketed(commentChar, indentLevel, "BEGIN POST", "END POST", post)
    + [""]
  }

  /** Everything `export` appends, given the already prepared layers. */
  function ExportLines<V>(commentChar: string, indentLevel: int, code: V -> string, pre: PropText, post: PropText,
                          fileName: string, fileType: string, layers: seq<Layer<V>>): seq<string>
  {
    ExportText(commentChar, indentLevel, pre, post, fileName, fileType, CodeLines(false, commentChar, indentLevel, code, layers))
  }

  /** The two halves of a concatenation are its prefix and suffix. */
  lemma AppendSplits<T>(a: seq<T>, b: seq<T>)
    ensures (a + b)[..|a|] == a && (a + b)[|a|..] == b
  {
  }

  /** Where each of six concatenated pieces sits in the whole. */
  lemma PiecesAt<T>(h: seq<T>, bp: seq<T>, body: seq<T>, bq: seq<T>, blank: T)
    ensures var e := h + bp + body + [blank] + bq + [blank];
            var a := |h| + |bp|;
            && |e| == a + |body| + 1 + |bq| + 1
            && e[..|h|] == h && e[|h|..a] == bp && e[a..a + |body|] == body
            && e[a + |body|] == blank && e[|e| - 1 - |bq|..|e| - 1] == bq && e[|e| - 1] == blank
  {
    var a := h + bp;
    var b := a + body + [blank];
    var d := b + bq;
    var e := d + [blank];
    AppendSplits(d, [blank]);
    AppendSplits(b, bq);
    AppendSplits(a + body, [blank]);
    AppendSplits(a, body);
    AppendSplits(h, bp);
    assert e[..|b|] == b;
    assert e[|b|..|d|] == bq;
    assert e[..|a + body|] == a + body;
    assert e[|a|..|a + body|] == body;
    assert e[..|a|] == a;
    assert e[|h|..|a|] == bp;
  }

  /**
    The header comes first; the pre block sits right after it and the post
    block right before the final blank line, each bracketed by its BEGIN/END
    comments and each present exactly when its property is not the empty
    text. A given text sits between its comments; an undefined property puts
    an empty line there. Between the blocks come the body and one blank line.
  */
  lemma ExportLayout(commentChar: string, indentLevel: int, pre: PropText, post: PropText,
                     fileName: string, fileType: string, body: seq<string>)
    ensures var e := ExportText(commentChar, indentLevel, pre, post, fileName, fileType, body);
            var p := if pre != Defined("") then 3 else 0;
            var q := if post != Defined("") then 3 else 0;
            && |e| == 4 + p + |body| + 1 + q + 1
            && e[..4] == Header(commentChar, indentLevel, fileName, fileType)
            && (pre.Defined? && pre.text != "" ==>
                  e[4..7] == [CommentLine(commentChar, indentLevel, "BEGIN PRE"), pre.text, CommentLine(commentChar, indentLevel, "END PRE")])
            && (pre.Undefined? ==>
                  e[4..7] == [CommentLine(commentChar, indentLevel, "BEGIN PRE"), "", CommentLine(commentChar, indentLevel, "END PRE")])
            && e[4 + p..4 + p + |body|] == body
            && e[4 + p + |body|] == ""
            && (post.Defined? && post.text != "" ==>
                  e[|e| - 4..|e| - 1] == [CommentLine(commentChar, indentLevel, "BEGIN POST"), post.text, CommentLine(commentChar, indentLevel, "END POST")])
            && (post.Undefined? ==>
                  e[|e| - 4..|e| - 1] == [CommentLine(commentChar, indentLevel, "BEGIN POST"), "", CommentLine(commentChar, indentLevel, "END POST")])
            && e[|e| - 1] == ""
  {
    var h := Header(commentChar, indentLevel, fileName, fileType);
    var bp := Bracketed(commentChar, indentLevel, "BEGIN PRE", "END PRE", pre);
    var bq := Bracketed(commentChar, indentLevel, "BEGIN POST", "END POST", post);
    var e := ExportText(commentChar, indentLevel, pre, post, fileName, fileType, body);
    var p := if pre != Defined("") then 3 else 0;
    var q := if post != Defined("") then 3 else 0;
    assert e == h + bp + body + [""] + bq + [""];
    assert |bp| == p && (pre.Defined? && pre.text != "" ==> bp == [CommentLine(commentChar, indentLevel, "BEGIN PRE"), pre.text, CommentLine(commentChar, indentLevel, "END PRE")])
                     && (pre.Undefined? ==> bp == [CommentLine(commentChar, indentLevel, "BEGIN PRE"), "", CommentLine(commentChar, indentLevel, "END PRE")]) by {
      BracketedShape(commentChar, indentLevel, "BEGIN PRE", "END PRE", pre);
    }
    assert |bq| == q && (post.Defined? && post.text != "" ==> bq == [CommentLine(commentChar, indentLevel, "BEGIN POST"), post.text, CommentLine(commentChar, indentLevel, "END POST")])
                     && (post.Undefined? ==> bq == [CommentLine(commentChar, indentLevel, "BEGIN POST"), "", CommentLine(commentChar, indentLevel, "END POST")]) by {
      BracketedShape(commentChar, indentLevel, "BEGIN POST", "END POST", post);
    }
    LayoutOfPieces(h, bp, body, bq, "");
  }

  /** The positions `ExportLayout` states, for any four-line header and blocks of three lines or none. */
  lemma LayoutOfPieces<T>(h: seq<T>, bp: seq<T>, body: seq<T>, bq: seq<T>, blank: T)
    requires |h| == 4 && (|bp| == 0 || |bp| == 3) && (|bq| == 0 || |bq| == 3)
    ensures var e := h + bp + body + [blank] + bq + [blank];
            var p := |bp|;
            && |e| == 4 + p + |body| + 1 + |bq| + 1
            && e[..4] == h
            && (p == 3 ==> e[4..7] == bp)
            && e[4 + p..4 + p + |body|] == body
            && e[4 + p + |body|] == blank
            && (|bq| == 3 ==> e[|e| - 4..|e| - 1] == bq)
            && e[|e| - 1] == blank
  {
    PiecesAt(h, bp, body, bq, blank);
  }

  /** A bracketed block has three lines or none, and an undefined property gives an empty middle line. */
  lemma BracketedShape(commentChar: string, indentLevel: int, begin: string, end: string, text: PropText)
    ensures var b := Bracketed(commentChar, indentLevel, begin, end, text);
            && |b| == (if text != Defined("") then 3 else 0)
            && (text.Defined? && text.text != "" ==>
                  b == [CommentLine(commentChar, indentLevel, begin), text.text, CommentLine(commentChar, indentLevel, end)])
            && (text.Undefined? ==>
                  b == [CommentLine(commentChar, indentLevel, begin), "", CommentLine(commentChar, indentLevel, end)])
  {
  }

  function MapSeq<A, B>(f: A -> B, s: seq<A>): (r: seq<B>)
    ensures |r| == |s| && forall i :: 0 <= i < |s| ==> r[i] == f(s[i])
  {
    seq(|s|, i requires 0 <= i < |s| => f(s[i]))
  }

  /** `Array.prototype.reverse` on a copy. */
  function Reversed<T>(s: seq<T>): (r: seq<T>)
    ensures |r| == |s|
  {
    if s == [] then [] else [s[|s| - 1]] + Reversed(s[..|s| - 1])
  }

  lemma {:induction false} ReversedAt<T>(s: seq<T>)
    ensures forall i :: 0 <= i < |s| ==> Reversed(s)[i] == s[|s| - 1 - i]
  {
    if s != [] {
      ReversedAt(s[..|s| - 1]);
    }
  }

  /** What `prepareLayers` makes of one layer's vertices. */
  function PreparedVertices<V>(vertices: seq<V>, reverse: bool, transform: V -> V): seq<V>
  {
    var moved := MapSeq(transform, vertices);
    if reverse then Reversed(moved) else moved
  }

  /** The result of `prepareLayers`: layer order and each layer's vertex order reversed exactly when `reverse` is set. */
  function PreparedLayers<V>(layers: seq<Layer<V>>, reverse: bool, transform: V -> V): (r: seq<Layer<V>>)
    ensures |r| == |layers|
  {
    var ordered := if reverse then Reversed(layers) else layers;
    seq(|ordered|, i requires 0 <= i < |ordered| =>
      ordered[i].(vertices := PreparedVertices(ordered[i].vertices, reverse, transform)))
  }

  /**
    Layer i of the prepared list is layer i (or, reversed, layer n-1-i) of
    the input, every other field kept, with its vertices shifted and, when
    reversed, in reverse order.
  */
  lemma PreparedLayersAt<V>(layers: seq<Layer<V>>, reverse: bool, transform: V -> V, i: nat)
    requires i < |layers|
    ensures var j := if reverse then |layers| - 1 - i else i;
            var l := PreparedLayers(layers, reverse, transform)[i];
            && l.(vertices := layers[j].vertices) == layers[j]
            && |l.vertices| == |layers[j].vertices|
            && forall k :: 0 <= k < |l.vertices| ==>
                 l.vertices[k] == transform(layers[j].vertices[if reverse then |l.vertices| - 1 - k else k])
  {
    ReversedAt(layers);
    var j := if reverse then |layers| - 1 - i else i;
    var ordered := if reverse then Reversed(layers) else layers;
    assert ordered[i] == layers[j];
    var moved := MapSeq(transform, layers[j].vertices);
    ReversedAt(moved);
    assert PreparedLayers(layers, reverse, transform)[i] == layers[j].(vertices := PreparedVertices(layers[j].vertices, reverse, transform));
  }

  /** Without a shift, preparing twice in reverse gives back the original layers. */
  lemma PreparedTwiceInReverse<V>(layers: seq<Layer<V>>, transform: V -> V)
    requires forall v :: transform(v) == v
    ensures PreparedLayers(PreparedLayers(layers, true, transform), true, transform) == layers
  {
    var once := PreparedLayers(layers, true, transform);
    var twice := PreparedLayers(once, true, transform);
    forall i | 0 <= i < |layers| ensures twice[i] == layers[i] {
      PreparedLayersAt(once, true, transform, i);
      PreparedLayersAt(layers, true, transform, |layers| - 1 - i);
    }
  }

  // ---------------------------------------------------------------------------
  // The serialiser object

  /** One more layer's block after the blocks of the layers before it. */
  lemma CodeLinesStep<V>(base: seq<string>, commenting: bool, commentChar: string, indentLevel: int, code: V -> string,
                         layers: seq<Layer<V>>, i: nat)
    requires i < |layers|
    ensures base + CodeLines(commenting, commentChar, indentLevel, code, layers[..i])
                 + LayerBlock(commenting && i == 0, commentChar, indentLevel, code, layers[i])
         == base + CodeLines(commenting, commentChar, indentLevel, code, layers[..i + 1])
  {
    CodeLinesSnoc(commenting, commentChar, indentLevel, code, layers[..i], layers[i]);
    TakeOneMore(layers, i);
    AppendAssociative(base, CodeLines(commenting, commentChar, indentLevel, code, layers[..i]),
                      LayerBlock(commenting && i == 0, commentChar, indentLevel, code, layers[i]));
  }

  class Exporter<V> {
    const commentChar: string
    const pre: PropText
    const post: PropText
    const fileName: string
    const fileType: string
    const reverse: bool
    const code: V -> string
    const transform: V -> V

    var lines: seq<string>
    var commenting: bool
    var indentLevel: int
    var layers: seq<Layer<V>>

    constructor (commentChar: string, pre: PropText, post: PropText, fileName: string, fileType: string,
                 reverse: bool, code: V -> string, transform: V -> V)
      ensures this.commentChar == commentChar && this.pre == pre && this.post == post
      ensures this.fileName == fileName && this.fileType == fileType && this.reverse == reverse
      ensures this.code == code && this.transform == transform
      ensures lines == [] && !commenting && indentLevel == 0 && layers == []
    {
      this.commentChar := commentChar;
      this.pre := pre;
      this.post := post;
      this.fileName := fileName;
      this.fileType := fileType;
      this.reverse := reverse;
      this.code := code;
      this.transform := transform;
      lines := [];
      commenting := false;
      indentLevel := 0;
      layers := [];
    }

    /** `line(content, add, sanitize)`: appends one rendered entry when `add` holds, and nothing otherwise. */
    method Line(content: string, add: bool, sanitize: bool)
      modifies this`lines
      ensures lines == old(lines) + (if add then [Rendered(commenting, commentChar, indentLevel, content, sanitize)] else [])
    {
      if add {
        var padding := "";
        if commenting {
          padding := commentChar + (if |content| > 0 then " " else "");
          ghost var head := padding;
          var i := 0;
          while i < indentLevel
            invariant 0 <= i <= if indentLevel > 0 then indentLevel else 0
            invariant padding == head + Indentation(i)
          {
            padding := padding + "  ";
            i := i + 1;
          }
          assert Indentation(i) == Indentation(indentLevel);
        }
        var prepared := if sanitize then SanitizeValue(content) else content;
        lines := lines + [padding + prepared];
      }
    }

    /** `line(content, add, sanitize)` outside comment mode: the content itself, sanitized when asked. */
    method PlainLine(content: string, add: bool, sanitize: bool)
      requires !commenting
      modifies this`lines
      ensures lines == old(lines) + if add then [if sanitize then SanitizeValue(content) else content] else []
    {
      Line(content, add, sanitize);
      RenderedPlain(commentChar, indentLevel, content, sanitize);
    }

    /** `keyValueLine(key, value, add)` */
    method KeyValueLine(key: string, value: string, add: bool)
      modifies this`lines
      ensures lines == old(lines) + (if add then [Rendered(commenting, commentChar, indentLevel, key + ": " + value, true)] else [])
    {
      Line(key + ": " + value, add, true);
    }

    method Indent()
      modifies this`indentLevel
      ensures indentLevel == old(indentLevel) + 1
    {
      indentLevel := indentLevel + 1;
    }

    method Dedent()
      modifies this`indentLevel
      ensures indentLevel == old(indentLevel) - 1
    {
      indentLevel := indentLevel - 1;
    }

    method StartComments()
      modifies this`commenting
      ensures commenting
    {
      commenting := true;
    }

    method EndComments()
      modifies this`commenting
      ensures !commenting
    {
      commenting := false;
    }

    /** `comment(text)` with a string: exactly one comment line, and comment mode off afterwards. */
    method Comment(text: string)
      modifies this`lines, this`commenting
      ensures lines == old(lines) + [CommentLine(commentChar, indentLevel, text)]
      ensures !commenting
    {
      StartComments();
      Line(text, true, true);
      EndComments();
    }

    /** `actionComment(layer, action)` */
    method ActionComment(layer: Layer<V>, action: string)
      modifies this`lines, this`commenting
      ensures lines == old(lines) + [ActionLine(commentChar, indentLevel, layer, action)]
      ensures !commenting
    {
      Comment(ActionText(layer, action));
    }

    /** `prepareLayers(layers)`: the prepared layers, as new values. */
    method PrepareLayers(input: seq<Layer<V>>) returns (prepared: seq<Layer<V>>)
      ensures prepared == PreparedLayers(input, reverse, transform)
    {
      prepared := if reverse then Reversed(input) else input;
      ghost var ordered := prepared;
      var i := 0;
      while i < |prepared|
        invariant 0 <= i <= |prepared| == |ordered|
        invariant forall j :: 0 <= j < i ==> prepared[j] == ordered[j].(vertices := PreparedVertices(ordered[j].vertices, reverse, transform))
        invariant forall j :: i <= j < |prepared| ==> prepared[j] == ordered[j]
      {
        var vertices := MapSeq(transform, prepared[i].vertices);
        if reverse {
          vertices := Reversed(vertices);
        }
        prepared := prepared[i := prepared[i].(vertices := vertices)];
        i := i + 1;
      }
    }

    /** `exportCode()`: one block per layer of `layers`, in order. */
    method ExportCode()
      modifies this`lines, this`commenting
      ensures lines == old(lines) + CodeLines(old(commenting), commentChar, indentLevel, code, layers)
      ensures commenting == (old(commenting) && layers == [])
    {
      ExportLeading(|layers|);
      assert layers[..|layers|] == layers;
    }

    /**
      The first `n` rounds of the `forEach` in `exportCode`: one block for
      each of the first `n` layers, in order.
    */
    method ExportLeading(n: nat)
      requires n <= |layers|
      modifies this`lines, this`commenting
      ensures lines == old(lines) + CodeLines(old(commenting), commentChar, indentLevel, code, layers[..n])
      ensures commenting == (old(commenting) && n == 0)
    {
      ghost var base, first := lines, commenting;
      var leading := layers[..n];
      var i := 0;
      while i < |leading|
        invariant 0 <= i <= |leading|
        invariant lines == base + CodeLines(first, commentChar, indentLevel, code, leading[..i])
        invariant commenting == (first && i == 0)
      {
        EmitLayer(leading[i]);
        assert lines == base + CodeLines(first, commentChar, indentLevel, code, leading[..i + 1]) by {
          CodeLinesStep(base, first, commentChar, indentLevel, code, leading, i);
        }
        i := i + 1;
      }
      assert leading[..i] == leading;
    }

    /** The body of the `forEach` in `exportCode`, for one layer. */
    method EmitLayer(layer: Layer<V>)
      modifies this`lines, this`commenting
      ensures lines == old(lines) + LayerBlock(old(commenting), commentChar, indentLevel, code, layer)
      ensures !commenting
    {
      EmitOpening(layer);
      ghost var afterOpening := lines;
      EmitBody(layer);
      ghost var afterBody := lines;
      EmitClosing(layer);
      assert lines == old(lines) + (afterOpening[|old(lines)|..] + afterBody[|afterOpening|..] + lines[|afterBody|..]);
    }

    /** The start of the `forEach` body in `exportCode`: the `pre` code blocks when there are some, then a blank line. */
    method EmitOpening(layer: Layer<V>)
      modifies this`lines, this`commenting
      ensures lines == old(lines) + LayerOpening(old(commenting), commentChar, indentLevel, layer)
      ensures commenting == (old(commenting) && |layer.code| == 0)
    {
      if |layer.code| > 0 {
        Line("", true, true);
        ActionComment(layer, "BEGIN PRE");
        EmitTexts(layer.code, true);
        ActionComment(layer, "END PRE");
      }
      Line("", true, true);
    }

    /** The middle of that body: the BEGIN comment, one code line per vertex, the END comment. */
    method EmitBody(layer: Layer<V>)
      modifies this`lines, this`commenting
      ensures lines == old(lines) + LayerBody(commentChar, indentLevel, code, layer)
      ensures !commenting
    {
      ActionComment(layer, "BEGIN");
      EmitVertices(layer.vertices);
      ActionComment(layer, "END");
    }

    /** The end of that body: for a layer with code blocks, a blank line and the `post` code blocks. */
    method EmitClosing(layer: Layer<V>)
      requires !commenting
      modifies this`lines, this`commenting
      ensures lines == old(lines) + LayerClosing(commentChar, indentLevel, layer)
      ensures !commenting
    {
      if |layer.code| > 0 {
        Line("", true, true);
        ActionComment(layer, "BEGIN POST");
        EmitTexts(layer.code, false);
        ActionComment(layer, "END POST");
      }
    }

    /** The `layer.code.forEach` loops: each block's `pre` (or `post`) text verbatim, when non-empty. */
    method EmitTexts(blocks: seq<CodeBlock>, pres: bool)
      requires !commenting
      modifies this`lines
      ensures lines == old(lines) + CodeTexts(blocks, pres)
    {
      var j := 0;
      while j < |blocks|
        invariant 0 <= j <= |blocks|
        invariant lines == old(lines) + CodeTexts(blocks[..j], pres)
      {
        var text := if pres then blocks[j].pre else blocks[j].post;
        PlainLine(text, text != "", false);
        CodeTextsOneMore(blocks, pres, j);
        AppendAssociative(old(lines), CodeTexts(blocks[..j], pres), IfNonEmpty(text));
        j := j + 1;
      }
      assert blocks[..j] == blocks;
    }

    /** The `layer.vertices.forEach` loop: one sanitized code line per vertex. */
    method EmitVertices(vertices: seq<V>)
      requires !commenting
      modifies this`lines
      ensures lines == old(lines) + VertexLines(code, vertices)
    {
      var k := 0;
      while k < |vertices|
        invariant 0 <= k <= |vertices|
        invariant lines == old(lines) + VertexLines(code, vertices[..k])
      {
        var entry := SanitizeValue(code(vertices[k]));
        PlainLine(code(vertices[k]), true, true);
        VertexLinesOneMore(code, vertices, k);
        AppendAssociative(old(lines), VertexLines(code, vertices[..k]), [entry]);
        k := k + 1;
      }
      assert vertices[..k] == vertices;
    }

    /**
      `export()`: the layers are prepared and kept, then the commented header,
      the pre block, every layer's code, a blank line, the post block and a
      final blank line are appended.
    */
    method Export(input: seq<Layer<V>>) returns (result: seq<string>)
      modifies this`lines, this`commenting, this`layers
      ensures layers == PreparedLayers(input, reverse, transform)
      ensures lines == old(lines) + ExportLines(commentChar, indentLevel, code, pre, post, fileName, fileType, layers)
      ensures !commenting && result == lines
    {
      layers := PrepareLayers(input);
      EmitHeader();
      ghost var l1 := lines;
      EmitBracketed("BEGIN PRE", "END PRE", pre);
      ghost var l2 := lines;
      ExportCode();
      ghost var l3 := lines;
      Line("", true, true);
      ghost var l4 := lines;
      EmitBracketed("BEGIN POST", "END POST", post);
      ghost var l5 := lines;
      Line("", true, true);
      SixParts(old(lines), l1, l2, l3, l4, l5, lines);
      result := lines;
    }

    /** The `comment(() => { ... })` call of `export`: the header lines, in comment mode. */
    method EmitHeader()
      modifies this`lines, this`commenting
      ensures lines == old(lines) + Header(commentChar, indentLevel, fileName, fileType)
      ensures !commenting
    {
      StartComments();
      Line("", true, true);
      KeyValueLine("File name", "'" + fileName + "'", true);
      KeyValueLine("File type", fileType, true);
      Line("", true, true);
      EndComments();
      assert "File name" + ": " + ("'" + fileName + "'") == "File name: '" + fileName + "'";
      assert "File type" + ": " + fileType == "File type: " + fileType;
    }

    /** The `if (this.pre !== "")` (or `post`) block of `export`. */
    method EmitBracketed(begin: string, end: string, text: PropText)
      requires !commenting
      modifies this`lines, this`commenting
      ensures lines == old(lines) + Bracketed(commentChar, indentLevel, begin, end, text)
      ensures !commenting
    {
      if text != Defined("") {
        Comment(begin);
        Line(ContentOf(text), text != Defined(""), false);
        Comment(end);
        assert "" + ContentOf(text) == ContentOf(text);
      }
    }
  }

  /** Appending six pieces one after another appends their concatenation. */
  lemma SixParts<T>(l0: seq<T>, l1: seq<T>, l2: seq<T>, l3: seq<T>, l4: seq<T>, l5: seq<T>, l6: seq<T>)
    requires l0 <= l1 <= l2 <= l3 <= l4 <= l5 <= l6
    ensures l6 == l0 + (l1[|l0|..] + l2[|l1|..] + l3[|l2|..] + l4[|l3|..] + l5[|l4|..] + l6[|l5|..])
  {
  }

}
