/** The search-term tokenizer of `doSearch` (lib/actions/musicSearch.js and
    lib/actions/search.js carry the same code). A term such as
    `artist:Queen album:Greatest Hits` is split on spaces; a token
    `artist:`, `album:` or `track:` (any case before the colon) sets that
    field to the text after its colon followed by the untagged tokens after
    it, up to the next token tagged `artist:`, `album:`, `track:` or
    `year:`. Tokens before the first tag, and `year:` values, are dropped.

    Each token is first read as a `Word`: what its tag is, the text after
    its first ':', and the token itself. `ParseFrom` states the outcome on
    the words; `Tokenize` is the two-loop scan over the tokens with its
    shared cursor. */
module QueryParser {
  import opened Text

  datatype Fields = Fields(artist: string, album: string, track: string)

  /** The tags `accumulate` stops at. */
  predicate IsFieldName(p: string) {
    p == "artist" || p == "album" || p == "track" || p == "year"
  }

  /** The lower-cased text before a token's first ':', or "" for a token
      without one. */
  function Tag(token: string): string {
    var parts := Split(token, ':');
    if |parts| > 1 then Lower(parts[0]) else ""
  }

  /** The text between a token's first and second ':'. */
  function Suffix(token: string): string {
    var parts := Split(token, ':');
    if |parts| > 1 then parts[1] else ""
  }

  /** What a token's tag is to the tokenizer. */
  datatype TagKind = ArtistTag | AlbumTag | TrackTag | YearTag | NoTag

  function KindOf(token: string): TagKind {
    var tag := Tag(token);
    if tag == "artist" then ArtistTag
    else if tag == "album" then AlbumTag
    else if tag == "track" then TrackTag
    else if tag == "year" then YearTag
    else NoTag
  }

  /** The test `accumulate` stops at is a tag of one of the four fields. */
  lemma FieldTagKind(token: string)
    ensures (|Split(token, ':')| > 1 && IsFieldName(Lower(Split(token, ':')[0]))) <==> KindOf(token) != NoTag
  {
  }

  /** A token as the tokenizer reads it. */
  datatype Word = Word(kind: TagKind, suffix: string, text: string)

  function Read(token: string): (w: Word)
    ensures w.text == token
  {
    Word(KindOf(token), Suffix(token), token)
  }

  function Words(tokens: seq<string>): (r: seq<Word>)
    ensures |r| == |tokens|
  {
    if tokens == [] then [] else Words(tokens[..|tokens| - 1]) + [Read(tokens[|tokens| - 1])]
  }

  lemma {:induction false} WordAt(tokens: seq<string>, k: nat)
    requires k < |tokens|
    ensures Words(tokens)[k] == Read(tokens[k])
    decreases |tokens|
  {
    var init := tokens[..|tokens| - 1];
    if k < |init| {
      WordAt(init, k);
      assert tokens[k] == init[k];
    }
  }

  /** The first field tag at or after `from`, or the end. */
  function NextTag(words: seq<Word>, from: nat): (r: nat)
    requires from <= |words|
    ensures from <= r <= |words|
    ensures r < |words| ==> words[r].kind != NoTag
    ensures forall k :: from <= k < r ==> words[k].kind == NoTag
    decreases |words| - from
  {
    if from == |words| || words[from].kind != NoTag then from else NextTag(words, from + 1)
  }

  /** The tokens of `words[i..j]`, each followed by one space, as
      `accumulated += token + ' '` builds them. */
  function Spaced(words: seq<Word>, i: nat, j: nat): string
    requires i <= j <= |words|
    decreases j - i
  {
    if i == j then "" else Spaced(words, i, j - 1) + words[j - 1].text + " "
  }

  /** The value the tag at `i` carries: its suffix followed by the untagged
      tokens after it, trimmed. */
  function TagValue(words: seq<Word>, i: nat): string
    requires i < |words|
  {
    Trim(words[i].suffix + " " + Trim(Spaced(words, i + 1, NextTag(words, i + 1))))
  }

  /** The fields after reading `words[i..]`, starting from `acc`. */
  function ParseFrom(words: seq<Word>, i: nat, acc: Fields): Fields
    requires i <= |words|
    decreases |words| - i
  {
    if i == |words| then acc
    else
      match words[i].kind
      case ArtistTag => ParseFrom(words, NextTag(words, i + 1), acc.(artist := TagValue(words, i)))
      case AlbumTag => ParseFrom(words, NextTag(words, i + 1), acc.(album := TagValue(words, i)))
      case TrackTag => ParseFrom(words, NextTag(words, i + 1), acc.(track := TagValue(words, i)))
      case _ => ParseFrom(words, i + 1, acc)
  }

  /** The fields a whole term yields. */
  function Parse(term: string): Fields {
    ParseFrom(Words(Split(term, ' ')), 0, Fields("", "", ""))
  }

  /** An untagged token is gathered, and the next tag lies beyond it. */
  lemma Gathers(tokens: seq<string>, start: nat, next: nat, acc: string)
    requires start <= next < |tokens| && Words(tokens)[next].kind == NoTag
    requires acc == Spaced(Words(tokens), start, next)
    ensures acc + tokens[next] + " " == Spaced(Words(tokens), start, next + 1)
    ensures NextTag(Words(tokens), next) == NextTag(Words(tokens), next + 1)
  {
    WordAt(tokens, next);
  }

  /** The test `accumulate` stops at: the token is tagged with one of the
      four fields. */
  method IsFieldTagged(token: string) returns (stop: bool)
    ensures stop <==> Read(token).kind != NoTag
  {
    var splitToken := Split(token, ':');
    FieldTagKind(token);
    stop := |splitToken| > 1 && IsFieldName(Lower(splitToken[0]));
  }

  /** `accumulate()`: gathers the untagged tokens from `start` on and
      returns them trimmed, with the cursor left on the next tag. */
  method Accumulate(tokens: seq<string>, start: nat) returns (accumulated: string, next: nat)
    requires start <= |tokens|
    ensures next == NextTag(Words(tokens), start)
    ensures accumulated == Trim(Spaced(Words(tokens), start, next))
  {
    ghost var words := Words(tokens);
    var acc := "";
    next := start;
    while next < |tokens|
      invariant start <= next <= |tokens|
      invariant acc == Spaced(words, start, next)
      invariant NextTag(words, start) == NextTag(words, next)
    {
      var stop := IsFieldTagged(tokens[next]);
      WordAt(tokens, next);
      if stop {
        break;
      }
      Gathers(tokens, start, next, acc);
      acc := acc + tokens[next] + " ";
      next := next + 1;
    }
    accumulated := Trim(acc);
  }

  /** The value a tag found by `Tokenize` sets. */
  lemma TokenValue(tokens: seq<string>, i: nat, rest: string)
    requires i < |tokens| && |Split(tokens[i], ':')| > 1
    requires rest == Trim(Spaced(Words(tokens), i + 1, NextTag(Words(tokens), i + 1)))
    ensures Trim(Split(tokens[i], ':')[1] + " " + rest) == TagValue(Words(tokens), i)
  {
    WordAt(tokens, i);
  }

  /** The prefix tests of the tokenizer loop pick out the token's tag. */
  lemma PrefixKind(token: string)
    ensures var parts := Split(token, ':');
      if |parts| > 1 then
        && (Lower(parts[0]) == "artist" <==> KindOf(token) == ArtistTag)
        && (Lower(parts[0]) == "album" <==> KindOf(token) == AlbumTag)
        && (Lower(parts[0]) == "track" <==> KindOf(token) == TrackTag)
      else KindOf(token) == NoTag
  {
  }

  /** One word read by `ParseFrom`. */
  lemma ParseStep(words: seq<Word>, i: nat, acc: Fields)
    requires i < |words|
    ensures words[i].kind == ArtistTag ==>
      ParseFrom(words, i, acc) == ParseFrom(words, NextTag(words, i + 1), acc.(artist := TagValue(words, i)))
    ensures words[i].kind == AlbumTag ==>
      ParseFrom(words, i, acc) == ParseFrom(words, NextTag(words, i + 1), acc.(album := TagValue(words, i)))
    ensures words[i].kind == TrackTag ==>
      ParseFrom(words, i, acc) == ParseFrom(words, NextTag(words, i + 1), acc.(track := TagValue(words, i)))
    ensures words[i].kind == NoTag || words[i].kind == YearTag ==> ParseFrom(words, i, acc) == ParseFrom(words, i + 1, acc)
  {
  }

  /** The tokenizer loop of `doSearch`. */
  method Tokenize(term: string) returns (artist: string, album: string, track: string)
    ensures Fields(artist, album, track) == Parse(term)
  {
    var tokens := Split(term, ' ');
    ghost var words := Words(tokens);
    artist, album, track := "", "", "";
    var tokenIndex := 0;
    while tokenIndex < |tokens|
      invariant tokenIndex <= |tokens|
      invariant ParseFrom(words, tokenIndex, Fields(artist, album, track)) == Parse(term)
      decreases |tokens| - tokenIndex
    {
      ghost var at := tokenIndex;
      var token := tokens[tokenIndex];
      tokenIndex := tokenIndex + 1;
      var splitToken := Split(token, ':');
      WordAt(tokens, at);
      PrefixKind(token);
      ParseStep(words, at, Fields(artist, album, track));
      if |splitToken| > 1 {
        var prefix := Lower(splitToken[0]);
        var suffix := splitToken[1];
        if prefix == "artist" {
          var rest;
          rest, tokenIndex := Accumulate(tokens, tokenIndex);
          TokenValue(tokens, at, rest);
          artist := Trim(suffix + " " + rest);
        } else if prefix == "album" {
          var rest;
          rest, tokenIndex := Accumulate(tokens, tokenIndex);
          TokenValue(tokens, at, rest);
          album := Trim(suffix + " " + rest);
        } else if prefix == "track" {
          var rest;
          rest, tokenIndex := Accumulate(tokens, tokenIndex);
          TokenValue(tokens, at, rest);
          track := Trim(suffix + " " + rest);
        }
      }
    }
  }

  /** Tokens tagged with nothing the tokenizer keeps (no ':' at all, or a
      `year:` or unknown tag) change nothing: untagged tokens before the
      first tag are dropped. */
  lemma {:induction false} UntaggedSkipped(words: seq<Word>, i: nat, j: nat, acc: Fields)
    requires i <= j <= |words|
    requires forall k :: i <= k < j ==> words[k].kind == NoTag || words[k].kind == YearTag
    ensures ParseFrom(words, i, acc) == ParseFrom(words, j, acc)
    decreases j - i
  {
    if i < j {
      UntaggedSkipped(words, i + 1, j, acc);
    }
  }

  /** A token without ':' carries no tag. */
  lemma NoColonNoTag(token: string)
    requires ':' !in token
    ensures Tag(token) == "" && Read(token).kind == NoTag
  {
    assert Split(token, ':') == [token];
  }

  /** A field no token is tagged with keeps the value it had. */
  lemma {:induction false} UntouchedField(words: seq<Word>, i: nat, acc: Fields)
    requires i <= |words|
    requires forall k :: i <= k < |words| ==> words[k].kind != ArtistTag
    ensures ParseFrom(words, i, acc).artist == acc.artist
    decreases |words| - i
  {
    if i < |words| {
      var kind := words[i].kind;
      if kind == AlbumTag {
        UntouchedField(words, NextTag(words, i + 1), acc.(album := TagValue(words, i)));
      } else if kind == TrackTag {
        UntouchedField(words, NextTag(words, i + 1), acc.(track := TagValue(words, i)));
      } else {
        UntouchedField(words, i + 1, acc);
      }
    }
  }

  /** Repeated tags overwrite: once an `artist:` tag is read, the artist
      found before it no longer matters. */
  lemma LaterTagWins(words: seq<Word>, i: nat, acc: Fields, earlier: string)
    requires i < |words| && words[i].kind == ArtistTag
    ensures ParseFrom(words, i, acc) == ParseFrom(words, i, acc.(artist := earlier))
  {
  }

  /** The last `artist:` tag read decides the artist: its value is the
      result whatever follows, as long as no other `artist:` tag does. */
  lemma LastArtistTag(words: seq<Word>, i: nat, acc: Fields)
    requires i < |words| && words[i].kind == ArtistTag
    requires forall k :: i < k < |words| ==> words[k].kind != ArtistTag
    ensures ParseFrom(words, i, acc).artist == TagValue(words, i)
  {
    UntouchedField(words, NextTag(words, i + 1), acc.(artist := TagValue(words, i)));
  }
}
