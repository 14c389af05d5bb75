/** Which texts of a conversation are captured as memories. */
module MemoryCapture {
  import opened Outcomes
  import opened Text
  import opened MemoryTags

  datatype ContentBlock = TextBlock(text: string) | OtherBlock
  datatype Content = Plain(text: string) | Array(blocks: seq<ContentBlock>) | OtherContent
  datatype Message = NotObject | Message(role: Option<string>, content: Content)

  const MIN_EXTRACTED_TEXT_LENGTH := 10

  /** `s.slice(k)` for an integer k. */
  function SliceFrom(s: seq<Message>, k: int): seq<Message> {
    var start := if k < 0 then (if |s| + k < 0 then 0 else |s| + k) else if k > |s| then |s| else k;
    s[start..]
  }

  function BlocksText(blocks: seq<ContentBlock>): string {
    if blocks == [] then ""
    else
      var last := blocks[|blocks| - 1];
      BlocksText(blocks[..|blocks| - 1]) + if last.TextBlock? then last.text + "\n" else ""
  }

  function TextOf(c: Content): string {
    match c
    case Plain(text) => text
    case Array(blocks) => BlocksText(blocks)
    case OtherContent => ""
  }

  type Stripper = string -> string

  /** A text without injected memories and surrounding white space. */
  function StripText(t: Tags, text: string): string {
    Trim(Strip(t, text))
  }

  function Stripped(t: Tags): Stripper {
    text => StripText(t, text)
  }

  /** What one message contributes. */
  function Captured(strip: Stripper, m: Message, roles: set<string>): seq<string> {
    if m.NotObject? || m.role.None? || m.role.value !in roles then []
    else
      var text := strip(TextOf(m.content));
      if |text| > MIN_EXTRACTED_TEXT_LENGTH then [text] else []
  }

  function CapturedAll(strip: Stripper, messages: seq<Message>, roles: set<string>): seq<string> {
    if messages == [] then []
    else CapturedAll(strip, messages[..|messages| - 1], roles) + Captured(strip, messages[|messages| - 1], roles)
  }

  /** The inner loop over content blocks. */
  method JoinBlocks(blocks: seq<ContentBlock>) returns (text: string)
    ensures text == BlocksText(blocks)
  {
    text := "";
    for i := 0 to |blocks|
      invariant text == BlocksText(blocks[..i])
    {
      assert blocks[..i + 1][..i] == blocks[..i];
      if blocks[i].TextBlock? {
        text := text + blocks[i].text + "\n";
      }
    }
    assert blocks[..|blocks|] == blocks;
  }

  /** The body of the loop over messages. */
  method CaptureOne(strip: Stripper, m: Message, roles: set<string>) returns (texts: seq<string>)
    ensures texts == Captured(strip, m, roles)
  {
    if m.NotObject? || m.role.None? || m.role.value !in roles {
      return [];
    }
    var text := "";
    match m.content {
      case Plain(s) => text := s;
      case Array(blocks) => text := JoinBlocks(blocks);
      case OtherContent =>
    }
    text := strip(text);
    return if |text| > MIN_EXTRACTED_TEXT_LENGTH then [text] else [];
  }

  /** The loop over messages. */
  method CaptureEach(strip: Stripper, recent: seq<Message>, roles: set<string>) returns (texts: seq<string>)
    ensures texts == CapturedAll(strip, recent, roles)
  {
    texts := [];
    for i := 0 to |recent|
      invariant texts == CapturedAll(strip, recent[..i], roles)
    {
      assert recent[..i + 1][..i] == recent[..i];
      var captured := CaptureOne(strip, recent[i], roles);
      texts := texts + captured;
    }
    assert recent[..|recent|] == recent;
  }

  // ---- The captured texts, by position ----

  /** The last `maxCount` of `n` positions; zero takes all, and a negative count skips as many at the start. */
  predicate Recent(i: int, n: nat, maxCount: int) {
    0 <= i < n && if maxCount > 0 then n - maxCount <= i else 0 - maxCount <= i
  }

  /** The message has one of the roles and a text of more than ten characters. */
  predicate Wanted(strip: Stripper, m: Message, roles: set<string>) {
    m.Message? && m.role.Some? && m.role.value in roles && |strip(TextOf(m.content))| > 10
  }

  predicate Rising(at: seq<nat>) {
    forall j, k | 0 <= j < k < |at| :: at[j] < at[k]
  }

  /** `at` lists the positions from `from` on whose message is wanted, in order, and `texts` their texts. */
  ghost predicate Lists(strip: Stripper, messages: seq<Message>, from: nat, roles: set<string>, at: seq<nat>, texts: seq<string>) {
    && Rising(at) && |texts| == |at|
    && (forall i :: i in at <==> from <= i < |messages| && Wanted(strip, messages[i], roles))
    && (forall k | 0 <= k < |at| :: at[k] < |messages| && messages[at[k]].Message? && texts[k] == strip(TextOf(messages[at[k]].content)))
  }

  lemma {:induction false} CapturedFrom(strip: Stripper, messages: seq<Message>, from: nat, n: nat, roles: set<string>) returns (at: seq<nat>)
    requires from <= n <= |messages|
    ensures Lists(strip, messages[..n], from, roles, at, CapturedAll(strip, messages[from..n], roles))
  {
    if n == from {
      at := [];
    } else {
      at := CapturedFrom(strip, messages, from, n - 1, roles);
      var m := messages[n - 1];
      assert messages[from..n][..n - from - 1] == messages[from..n - 1] && messages[from..n][n - from - 1] == m;
      var texts := CapturedAll(strip, messages[from..n - 1], roles);
      at := ListsNext(strip, messages[..n - 1], m, from, roles, at, texts);
      assert messages[..n - 1] + [m] == messages[..n];
    }
  }

  lemma {:induction false} ListsNext(strip: Stripper, before: seq<Message>, m: Message, from: nat, roles: set<string>, at: seq<nat>, texts: seq<string>)
    returns (at': seq<nat>)
    requires from <= |before| && Lists(strip, before, from, roles, at, texts)
    ensures Lists(strip, before + [m], from, roles, at', texts + Captured(strip, m, roles))
  {
    var n := |before|;
    assert (before + [m])[n] == m && (before + [m])[..n] == before;
    if Wanted(strip, m, roles) {
      at' := at + [n];
    } else {
      at' := at;
      assert texts + [] == texts;
    }
  }

  /**
   * The texts are those of exactly the wanted ones among the recent messages, in their order: `at` lists their positions.
   */
  ghost predicate IsCapture(t: Tags, messages: seq<Message>, maxCount: int, roles: set<string>, at: seq<nat>, texts: seq<string>) {
    && Rising(at) && |texts| == |at|
    && (forall i :: i in at <==> Recent(i, |messages|, maxCount) && Wanted(Stripped(t), messages[i], roles))
    && (forall k | 0 <= k < |at| :: at[k] < |messages| && messages[at[k]].Message?
                                   && texts[k] == Trim(Strip(t, TextOf(messages[at[k]].content))))
  }

  lemma {:induction false} RecentCaptured(t: Tags, messages: seq<Message>, maxCount: int, roles: set<string>) returns (at: seq<nat>)
    ensures IsCapture(t, messages, maxCount, roles, at, CapturedAll(Stripped(t), SliceFrom(messages, 0 - maxCount), roles))
  {
    var n := |messages|;
    var from: nat := n - |SliceFrom(messages, 0 - maxCount)|;
    at := CapturedFrom(Stripped(t), messages, from, n, roles);
    assert messages[..n] == messages && messages[from..n] == SliceFrom(messages, 0 - maxCount);
    assert forall i :: Recent(i, n, maxCount) <==> from <= i < n;
  }

  /** extractMessageTexts; a count of zero takes every message. */
  method ExtractMessageTexts(t: Tags, messages: seq<Message>, maxCount: int, roles: set<string>)
    returns (texts: seq<string>, ghost at: seq<nat>)
    ensures texts == CapturedAll(Stripped(t), SliceFrom(messages, 0 - maxCount), roles)
    ensures IsCapture(t, messages, maxCount, roles, at, texts)
  {
    texts := CaptureEach(Stripped(t), SliceFrom(messages, 0 - maxCount), roles);
    at := RecentCaptured(t, messages, maxCount, roles);
  }

  // ---- Injection ----

  /** The content with the memory block in front of its first text, or as a text block of its own. */
  predicate Injected(block: string, c: Content, c': Content) {
    || c' == c
    || (c.Plain? && c' == Plain(block + c.text))
    || (c.Array? && c' == Array([TextBlock(block)] + c.blocks))
    || (c.Array? && exists k | 0 <= k < |c.blocks| :: IsFirstText(c.blocks, k) && c' == IntoText(block, c.blocks, k))
  }

  predicate IsFirstText(blocks: seq<ContentBlock>, k: nat) {
    k < |blocks| && blocks[k].TextBlock? && forall i | 0 <= i < k :: !blocks[i].TextBlock?
  }

  function IntoText(block: string, blocks: seq<ContentBlock>, k: nat): Content
    requires IsFirstText(blocks, k)
  {
    Array(blocks[k := TextBlock(block + blocks[k].text)])
  }

  predicate InjectedMessage(block: string, m: Message, m': Message) {
    m' == m || (m.Message? && m'.Message? && m'.role == m.role && Injected(block, m.content, m'.content))
  }

  /** Any of the messages may have had the block injected. */
  predicate InjectedAll(block: string, before: seq<Message>, after: seq<Message>) {
    |before| == |after| && forall i | 0 <= i < |before| :: InjectedMessage(block, before[i], after[i])
  }

  lemma {:induction false} BlocksTextConcat(xs: seq<ContentBlock>, ys: seq<ContentBlock>)
    ensures BlocksText(xs + ys) == BlocksText(xs) + BlocksText(ys)
  {
    if ys == [] {
      assert xs + ys == xs;
    } else {
      var n := |ys| - 1;
      assert (xs + ys)[..|xs| + n] == xs + ys[..n];
      BlocksTextConcat(xs, ys[..n]);
    }
  }

  lemma {:induction false} NoText(blocks: seq<ContentBlock>)
    requires forall i | 0 <= i < |blocks| :: !blocks[i].TextBlock?
    ensures BlocksText(blocks) == ""
  {
    if blocks != [] {
      NoText(blocks[..|blocks| - 1]);
    }
  }

  lemma {:induction false} OneText(t: string)
    ensures BlocksText([TextBlock(t)]) == t + "\n"
  {
  }

  lemma {:induction false} OwnBlockText(block: string, blocks: seq<ContentBlock>)
    ensures BlocksText([TextBlock(block)] + blocks) == block + ("\n" + BlocksText(blocks))
  {
    BlocksTextConcat([TextBlock(block)], blocks);
    OneText(block);
  }

  lemma {:induction false} TextFrom(blocks: seq<ContentBlock>, k: nat, t: string)
    requires k < |blocks| && blocks[k] == TextBlock(t) && forall i | 0 <= i < k :: !blocks[i].TextBlock?
    ensures BlocksText(blocks) == t + "\n" + BlocksText(blocks[k + 1..])
  {
    NoText(blocks[..k]);
    OneText(t);
    assert blocks == blocks[..k] + ([TextBlock(t)] + blocks[k + 1..]);
    BlocksTextConcat(blocks[..k], [TextBlock(t)] + blocks[k + 1..]);
    BlocksTextConcat([TextBlock(t)], blocks[k + 1..]);
  }

  lemma {:induction false} FirstText(block: string, blocks: seq<ContentBlock>, k: nat)
    requires IsFirstText(blocks, k)
    ensures TextOf(IntoText(block, blocks, k)) == block + BlocksText(blocks)
  {
    var t := blocks[k].text;
    TextFrom(blocks, k, t);
    TextFrom(blocks[k := TextBlock(block + t)], k, block + t);
    assert blocks[k := TextBlock(block + t)][k + 1..] == blocks[k + 1..];
    var rest := BlocksText(blocks[k + 1..]);
    assert (block + t) + "\n" + rest == block + (t + "\n" + rest);
  }

  predicate Drops(strip: Stripper, prefix: string, text: string) {
    strip(prefix + text) == strip(text)
  }

  /** The prefix survives in front of no text. */
  ghost predicate Invisible(strip: Stripper, prefix: string) {
    forall p :: Drops(strip, prefix, p)
  }

  lemma {:induction false} InjectionKeepsText(strip: Stripper, block: string, c: Content, c': Content)
    requires Invisible(strip, block) && Invisible(strip, "\n") && Injected(block, c, c')
    ensures strip(TextOf(c')) == strip(TextOf(c))
  {
    if c' != c && c.Plain? {
      assert Drops(strip, block, c.text);
    } else if c' != c {
      var text := BlocksText(c.blocks);
      assert Drops(strip, block, text) && Drops(strip, block, "\n" + text) && Drops(strip, "\n", text);
      if c' == Array([TextBlock(block)] + c.blocks) {
        OwnBlockText(block, c.blocks);
      } else {
        var k :| 0 <= k < |c.blocks| && IsFirstText(c.blocks, k) && c' == IntoText(block, c.blocks, k);
        FirstText(block, c.blocks, k);
      }
    }
  }

  lemma {:induction false} SameCaptured(strip: Stripper, block: string, before: seq<Message>, after: seq<Message>,
                                        roles: set<string>)
    requires Invisible(strip, block) && Invisible(strip, "\n") && InjectedAll(block, before, after)
    ensures CapturedAll(strip, after, roles) == CapturedAll(strip, before, roles)
  {
    if before != [] {
      var n := |before| - 1;
      SameCaptured(strip, block, before[..n], after[..n], roles);
      assert InjectedMessage(block, before[n], after[n]);
      if after[n] != before[n] {
        InjectionKeepsText(strip, block, before[n].content, after[n].content);
      }
    }
  }

  lemma {:induction false} CaptureSame(strip: Stripper, block: string, before: seq<Message>, after: seq<Message>,
                                       k: int, roles: set<string>)
    requires Invisible(strip, block) && Invisible(strip, "\n") && InjectedAll(block, before, after)
    ensures CapturedAll(strip, SliceFrom(after, k), roles) == CapturedAll(strip, SliceFrom(before, k), roles)
  {
    SameCaptured(strip, block, SliceFrom(before, k), SliceFrom(after, k), roles);
  }

  lemma {:induction false} FormattedDrops(t: Tags, memories: seq<string>, p: string)
    requires Fits(t)
    ensures Drops(Stripped(t), Format(t, memories), p)
  {
    InjectionIsInvisible(t, memories, p);
  }

  lemma {:induction false} LineEndDrops(t: Tags, p: string)
    requires Fits(t)
    ensures Drops(Stripped(t), "\n", p)
  {
    StripDropsSpace(t, "\n", p);
  }

  lemma {:induction false} FormattedIsInvisible(t: Tags, memories: seq<string>)
    requires Fits(t)
    ensures Invisible(Stripped(t), Format(t, memories))
  {
    forall p ensures Drops(Stripped(t), Format(t, memories), p) { FormattedDrops(t, memories, p); }
  }

  lemma {:induction false} LineEndIsInvisible(t: Tags)
    requires Fits(t)
    ensures Invisible(Stripped(t), "\n")
  {
    forall p ensures Drops(Stripped(t), "\n", p) { LineEndDrops(t, p); }
  }

  /** Whatever memories were injected into whichever messages, the same texts are captured. */
  lemma {:induction false} CaptureIgnoresInjection(t: Tags, memories: seq<string>, before: seq<Message>, after: seq<Message>,
                                                   maxCount: int, roles: set<string>)
    requires Fits(t) && InjectedAll(Format(t, memories), before, after)
    ensures CapturedAll(Stripped(t), SliceFrom(after, 0 - maxCount), roles)
            == CapturedAll(Stripped(t), SliceFrom(before, 0 - maxCount), roles)
  {
    FormattedIsInvisible(t, memories);
    LineEndIsInvisible(t);
    CaptureSame(Stripped(t), Format(t, memories), before, after, 0 - maxCount, roles);
  }
}
