/** The text handling of the agent's answer panel: the markdown strip applied to
    every displayed value, and the accumulation of a streamed answer chunk by
    chunk, each partial answer shown under a key of its own.

    The display container is replaced by the trace of the values it would be
    asked to show, in order; the streams are finite sequences of chunk contents.
 */
module LlmAgent {
  import opened Optional

  // ---------------------------------------------------------------------------
  // The markdown strip

  /** The characters the strip removes. */
  predicate IsMarkup(c: char) {
    c == '*' || c == '_' || c == '`' || c == '#'
  }

  predicate NoMarkup(s: string) {
    forall i | 0 <= i < |s| :: !IsMarkup(s[i])
  }

  /** The substitution of the pattern `\*\*|\*|_|`|#` by the empty string,
      scanning left to right and trying the alternatives in order at each
      position: a double asterisk is one match, any other markup character is
      one match, and everything else is copied. */
  function StripMarkdown(s: string): (r: string)
    ensures NoMarkup(r)
    ensures |r| <= |s|
  {
    if s == [] then []
    else if |s| >= 2 && s[0] == '*' && s[1] == '*' then StripMarkdown(s[2..])
    else if IsMarkup(s[0]) then StripMarkdown(s[1..])
    else [s[0]] + StripMarkdown(s[1..])
  }

  /** A reference definition: the characters of `s` that are not markup, in order. */
  function RemoveMarkupChars(s: string): string {
    if s == [] then [] else (if IsMarkup(s[0]) then [] else [s[0]]) + RemoveMarkupChars(s[1..])
  }

  /** The scan by alternatives removes exactly the markup characters. */
  lemma {:induction false} StripIsCharacterFilter(s: string)
    ensures StripMarkdown(s) == RemoveMarkupChars(s)
  {
    if s != [] {
      if |s| >= 2 && s[0] == '*' && s[1] == '*' {
        StripIsCharacterFilter(s[2..]);
        assert s[1..][1..] == s[2..];
      } else {
        StripIsCharacterFilter(s[1..]);
      }
    }
  }

  lemma {:induction false} FilterAppend(a: string, b: string)
    ensures RemoveMarkupChars(a + b) == RemoveMarkupChars(a) + RemoveMarkupChars(b)
  {
    if a != [] {
      assert (a + b)[1..] == a[1..] + b;
      FilterAppend(a[1..], b);
    } else {
      assert a + b == b;
    }
  }

  /** Stripping a concatenation is concatenating the stripped parts. */
  lemma StripDistributes(a: string, b: string)
    ensures StripMarkdown(a + b) == StripMarkdown(a) + StripMarkdown(b)
  {
    StripIsCharacterFilter(a + b);
    StripIsCharacterFilter(a);
    StripIsCharacterFilter(b);
    FilterAppend(a, b);
  }

  /** A text is left unchanged by the strip iff it holds no markup. */
  lemma {:induction false} StripIdentityIffNoMarkup(s: string)
    ensures StripMarkdown(s) == s <==> NoMarkup(s)
  {
    StripIsCharacterFilter(s);
    FilterKeepsPlainText(s);
    if StripMarkdown(s) == s {
      assert NoMarkup(StripMarkdown(s));
    }
  }

  lemma {:induction false} FilterKeepsPlainText(s: string)
    ensures NoMarkup(s) ==> RemoveMarkupChars(s) == s
  {
    if s != [] && NoMarkup(s) {
      assert !IsMarkup(s[0]);
      assert NoMarkup(s[1..]) by {
        assert forall i | 0 <= i < |s[1..]| :: s[1..][i] == s[i + 1];
      }
      FilterKeepsPlainText(s[1..]);
    }
  }

  /** Stripping twice is stripping once. */
  lemma StripIdempotent(s: string)
    ensures StripMarkdown(StripMarkdown(s)) == StripMarkdown(s)
  {
    StripIdentityIffNoMarkup(StripMarkdown(s));
  }

  /** A character survives the strip iff it occurs in the text and is not markup. */
  lemma {:induction false} StripKeepsOtherCharacters(s: string, c: char)
    ensures c in StripMarkdown(s) <==> c in s && !IsMarkup(c)
  {
    StripIsCharacterFilter(s);
    FilterMembership(s, c);
  }

  lemma {:induction false} FilterMembership(s: string, c: char)
    ensures c in RemoveMarkupChars(s) <==> c in s && !IsMarkup(c)
  {
    if s != [] {
      FilterMembership(s[1..], c);
      assert s == [s[0]] + s[1..];
    }
  }

  // ---------------------------------------------------------------------------
  // Keys of the displayed values

  function Digit(d: nat): char
    requires d < 10
  {
    "0123456789"[d]
  }

  /** The decimal numeral of `n`, as a Python f-string writes it. */
  function DecimalString(n: nat): (r: string)
    ensures |r| >= 1
    ensures n >= 10 ==> |r| >= 2
    decreases n
  {
    if n < 10 then [Digit(n)] else DecimalString(n / 10) + [Digit(n % 10)]
  }

  /** Different numbers have different numerals. */
  lemma {:induction false} DecimalStringInjective(a: nat, b: nat)
    ensures DecimalString(a) == DecimalString(b) ==> a == b
    decreases a
  {
    if DecimalString(a) == DecimalString(b) {
      if a >= 10 && b >= 10 {
        var sa, sb := DecimalString(a), DecimalString(b);
        assert sa[..|sa| - 1] == DecimalString(a / 10) && sb[..|sb| - 1] == DecimalString(b / 10);
        assert Digit(a % 10) == sa[|sa| - 1] == sb[|sb| - 1] == Digit(b % 10);
        DecimalStringInjective(a / 10, b / 10);
      }
    }
  }

  /** The key of the text area showing the answer after `n` chunks. */
  function ChunkKey(areaLabel: string, n: nat): string {
    areaLabel + "_cumul_response_" + DecimalString(n)
  }

  /** Keys for different chunk counts differ. */
  lemma ChunkKeyInjective(areaLabel: string, m: nat, n: nat)
    ensures ChunkKey(areaLabel, m) == ChunkKey(areaLabel, n) ==> m == n
  {
    var prefix := areaLabel + "_cumul_response_";
    if ChunkKey(areaLabel, m) == ChunkKey(areaLabel, n) {
      assert ChunkKey(areaLabel, m)[|prefix|..] == DecimalString(m);
      assert ChunkKey(areaLabel, n)[|prefix|..] == DecimalString(n);
      DecimalStringInjective(m, n);
    }
  }

  // ---------------------------------------------------------------------------
  // Rendering a stream

  /** What the panel is given: a whole answer, a stream of OpenAI chunks each
      carrying an optional delta, a stream of llama_index text chunks, or
      anything else. */
  datatype Stream =
    | PlainText(text: string)
    | OpenAIStream(deltas: seq<Option<string>>)
    | LlamaIndexStream(chunks: seq<string>)
    | Unsupported

  /** One request to the container to show `value` in a text area keyed `key`. */
  datatype TextArea = TextArea(key: string, value: string)

  /** An OpenAI delta's content, an absent one counting as the empty text. */
  function DeltaText(delta: Option<string>): string {
    if delta.Some? then delta.value else ""
  }

  /** The chunk contents a stream yields, in order. */
  function Contents(stream: Stream): seq<string> {
    match stream
    case OpenAIStream(deltas) => seq(|deltas|, i requires 0 <= i < |deltas| => DeltaText(deltas[i]))
    case LlamaIndexStream(chunks) => chunks
    case _ => []
  }

  /** The in-order concatenation of chunk contents. */
  function Concat(chunks: seq<string>): string {
    if chunks == [] then "" else Concat(chunks[..|chunks| - 1]) + chunks[|chunks| - 1]
  }

  /** The text area shown after the n-th chunk: the stripped concatenation of
      the first n chunks, under the n-th chunk key. */
  function View(areaLabel: string, chunks: seq<string>, n: nat): TextArea
    requires n <= |chunks|
  {
    TextArea(ChunkKey(areaLabel, n), StripMarkdown(Concat(chunks[..n])))
  }

  /** The text areas shown while `chunks` are consumed, one per chunk. */
  function Views(areaLabel: string, chunks: seq<string>): seq<TextArea> {
    if chunks == [] then []
    else Views(areaLabel, chunks[..|chunks| - 1]) + [View(areaLabel, chunks, |chunks|)]
  }

  /** What is shown after n chunks does not depend on the chunks after them. */
  lemma ViewOfPrefix(areaLabel: string, chunks: seq<string>, m: nat, n: nat)
    requires n <= m <= |chunks|
    ensures View(areaLabel, chunks[..m], n) == View(areaLabel, chunks, n)
  {
    assert chunks[..m][..n] == chunks[..n];
  }

  /** The answer returned and the text areas shown for a stream. */
  function RenderOf(areaLabel: string, stream: Stream): (string, seq<TextArea>) {
    match stream
    case PlainText(text) => (text, [TextArea(areaLabel, StripMarkdown(text))])
    case OpenAIStream(_) => (Concat(Contents(stream)), Views(areaLabel, Contents(stream)))
    case LlamaIndexStream(_) => (Concat(Contents(stream)), Views(areaLabel, Contents(stream)))
    case Unsupported => ("", [])
  }

  /** The panel: a whole answer is shown once under the label itself; a stream
      is consumed chunk by chunk, each chunk appended to the answer and the
      stripped answer so far shown under a key numbered by the chunk count. */
  method RenderTextArea(areaLabel: string, stream: Stream) returns (cumulResponse: string, shown: seq<TextArea>)
    ensures (cumulResponse, shown) == RenderOf(areaLabel, stream)
  {
    var chunkCounter := 0;
    cumulResponse := "";
    shown := [];

    match stream {
      case PlainText(text) =>
        cumulResponse := text;
        shown := [TextArea(areaLabel, StripMarkdown(cumulResponse))];

      case OpenAIStream(deltas) =>
        ghost var contents := Contents(stream);
        while chunkCounter < |deltas|
          invariant 0 <= chunkCounter <= |deltas|
          invariant cumulResponse == Concat(contents[..chunkCounter])
          invariant shown == Views(areaLabel, contents[..chunkCounter])
        {
          var chunk := deltas[chunkCounter];
          chunkCounter := chunkCounter + 1;
          var content := if chunk.Some? then chunk.value else "";
          assert content == contents[chunkCounter - 1];
          var uniqueKey := areaLabel + "_cumul_response_" + DecimalString(chunkCounter);
          cumulResponse := cumulResponse + content;
          shown := shown + [TextArea(uniqueKey, StripMarkdown(cumulResponse))];
          assert contents[..chunkCounter][..chunkCounter - 1] == contents[..chunkCounter - 1];
          assert contents[..chunkCounter][..chunkCounter] == contents[..chunkCounter];
        }
        assert contents[..chunkCounter] == contents;

      case LlamaIndexStream(chunks) =>
        while chunkCounter < |chunks|
          invariant 0 <= chunkCounter <= |chunks|
          invariant cumulResponse == Concat(chunks[..chunkCounter])
          invariant shown == Views(areaLabel, chunks[..chunkCounter])
        {
          var chunk := chunks[chunkCounter];
          chunkCounter := chunkCounter + 1;
          var uniqueKey := areaLabel + "_cumul_response_" + DecimalString(chunkCounter);
          cumulResponse := cumulResponse + chunk;
          shown := shown + [TextArea(uniqueKey, StripMarkdown(cumulResponse))];
          assert chunks[..chunkCounter][..chunkCounter - 1] == chunks[..chunkCounter - 1];
          assert chunks[..chunkCounter][..chunkCounter] == chunks[..chunkCounter];
        }
        assert chunks[..chunkCounter] == chunks;

      case Unsupported =>
    }
  }

  // ---------------------------------------------------------------------------
  // What the panel guarantees

  /** The concatenation of a longer stream extends that of its prefix. */
  lemma {:induction false} ConcatAppend(a: seq<string>, b: seq<string>)
    ensures Concat(a + b) == Concat(a) + Concat(b)
    decreases |b|
  {
    if b == [] {
      assert a + b == a;
    } else {
      var init := b[..|b| - 1];
      assert (a + b)[..|a + b| - 1] == a + init;
      ConcatAppend(a, init);
    }
  }

  /** After n chunks the panel has shown n text areas; the i-th (from 0) is keyed
      by the count i+1 and shows the stripped concatenation of the first i+1
      chunks. */
  lemma {:induction false} ViewsLookup(areaLabel: string, chunks: seq<string>)
    ensures |Views(areaLabel, chunks)| == |chunks|
    ensures forall i | 0 <= i < |chunks| :: Views(areaLabel, chunks)[i] == View(areaLabel, chunks, i + 1)
  {
    if chunks != [] {
      var init := chunks[..|chunks| - 1];
      ViewsLookup(areaLabel, init);
      var views := Views(areaLabel, chunks);
      assert views == Views(areaLabel, init) + [View(areaLabel, chunks, |chunks|)];
      forall i | 0 <= i < |chunks| ensures views[i] == View(areaLabel, chunks, i + 1) {
        if i < |init| {
          assert views[i] == Views(areaLabel, init)[i];
          ViewOfPrefix(areaLabel, chunks, |chunks| - 1, i + 1);
        }
      }
    }
  }

  /** The keys of the text areas shown for a stream are pairwise distinct. */
  lemma ViewKeysDistinct(areaLabel: string, chunks: seq<string>)
    ensures forall i, j | 0 <= i < j < |Views(areaLabel, chunks)| :: Views(areaLabel, chunks)[i].key != Views(areaLabel, chunks)[j].key
  {
    ViewsLookup(areaLabel, chunks);
    forall i, j | 0 <= i < j < |chunks| ensures Views(areaLabel, chunks)[i].key != Views(areaLabel, chunks)[j].key {
      ChunkKeyInjective(areaLabel, i + 1, j + 1);
    }
  }

  /** The returned answer is the in-order concatenation of the chunk contents, an
      absent OpenAI delta contributing nothing; a whole answer is returned as
      given, markup included, and shown stripped under the label; any other
      input returns the empty answer and shows nothing. A non-empty stream's
      last text area shows the stripped returned answer. */
  lemma RenderOutcome(areaLabel: string, stream: Stream)
    ensures stream.PlainText? ==>
              RenderOf(areaLabel, stream) == (stream.text, [TextArea(areaLabel, StripMarkdown(stream.text))])
    ensures stream.OpenAIStream? ==>
              RenderOf(areaLabel, stream).0 == Concat(Contents(stream))
              && |Contents(stream)| == |stream.deltas|
              && forall i | 0 <= i < |stream.deltas| ::
                   Contents(stream)[i] == (if stream.deltas[i].None? then "" else stream.deltas[i].value)
    ensures stream.LlamaIndexStream? ==> RenderOf(areaLabel, stream).0 == Concat(stream.chunks)
    ensures stream.Unsupported? ==> RenderOf(areaLabel, stream) == ("", [])
    ensures (stream.OpenAIStream? || stream.LlamaIndexStream?) && Contents(stream) != [] ==>
              var (answer, shown) := RenderOf(areaLabel, stream);
              |shown| == |Contents(stream)| && shown[|shown| - 1].value == StripMarkdown(answer)
  {
    var chunks := Contents(stream);
    ViewsLookup(areaLabel, chunks);
    if chunks != [] {
      assert chunks[..|chunks|] == chunks;
    }
  }
}
