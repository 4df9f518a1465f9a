/** `POST /api/generate-images`: one Together AI image per prompt, each prompt decorated
    with the style's modifier; a slot that fails carries its error instead of an image,
    the slots are sorted by index in place, and the response lists the images and the
    errors. The Together call is an injected function from the enhanced prompt to its
    outcome; the parallel fan-out is a map over the prompts in order. */
module GenerateImagesRoute {
  import opened Wrappers
  import opened Strings

  /** The request body: `prompts` is `None` when it is absent, falsy or not an array. */
  datatype ImagesBody = ImagesBody(prompts: Option<seq<string>>, character: Option<string>, style: Option<string>)

  /** What `together.images.create` does for one prompt: it throws (with its message, if
      any), or it answers with the first image's `url` and `b64_json` fields. */
  datatype TogetherReply = TogetherThrew(message: Option<string>) | TogetherImage(url: Option<string>, b64Json: Option<string>)

  /** The record one slot settles to. */
  datatype SlotResult = SlotResult(index: nat, url: Option<string>, prompt: Option<string>, error: Option<string>)

  datatype SlotError = SlotError(index: nat, error: string)

  datatype ImagesResponse =
    | Images(images: seq<Option<string>>, errors: seq<SlotError>)
    | ImagesFailure(status: nat, error: string)

  const DEFAULT_STYLE: string := "cartoon"
  const CARTOON_MODIFIER: string := "cartoon style, bright colors, friendly, children's book illustration"
  const WATERCOLOR_MODIFIER: string := "watercolor painting style, soft colors, dreamy, children's book art"
  const REALISTIC_MODIFIER: string := "detailed illustration, vibrant colors, child-friendly, storybook quality"
  const SAFETY_SUFFIX: string := ", safe for children, no scary elements, high quality"
  const INVALID_PROMPTS: string := "Invalid prompts"
  const DEFAULT_ERROR: string := "Failed to generate images"

  /** The style modifier; an absent style is `cartoon`, and an unknown one falls back to
      the cartoon modifier. */
  function Modifier(style: Option<string>): (m: string)
    ensures style.None? || style == Some("cartoon") ==> m == CARTOON_MODIFIER
    ensures style == Some("watercolor") ==> m == WATERCOLOR_MODIFIER
    ensures style == Some("realistic") ==> m == REALISTIC_MODIFIER
    ensures style.Some? && style.value !in {"cartoon", "watercolor", "realistic"} ==> m == CARTOON_MODIFIER
  {
    var s := style.GetOr(DEFAULT_STYLE);
    if s == "watercolor" then WATERCOLOR_MODIFIER
    else if s == "realistic" then REALISTIC_MODIFIER
    else CARTOON_MODIFIER
  }

  function EnhancedPrompt(prompt: string, modifier: string): string {
    prompt + ", " + modifier + SAFETY_SUFFIX
  }

  /** The record of slot `index`: the image (its `url`, else its `b64_json`) and the prompt
      on success, no image and the error's message on failure. */
  function SlotFor(prompt: string, index: nat, reply: TogetherReply): (r: SlotResult)
    ensures r.index == index
    ensures reply.TogetherThrew? ==> r.url.None? && r.prompt.None? && r.error == reply.message
    ensures reply.TogetherImage? ==> r.error.None? && r.prompt == Some(prompt)
    ensures reply.TogetherImage? && IsSet(reply.url) ==> r.url == reply.url
    ensures reply.TogetherImage? && !IsSet(reply.url) ==> r.url == reply.b64Json
  {
    match reply
    case TogetherThrew(m) => SlotResult(index, None, None, m)
    case TogetherImage(u, b) => SlotResult(index, if IsSet(u) then u else b, Some(prompt), None)
  }

  /** The slots in the order `Promise.all` settles them: the order of the prompts. */
  function Slots(prompts: seq<string>, modifier: string, generate: string -> TogetherReply): (r: seq<SlotResult>)
    ensures |r| == |prompts|
    ensures forall i :: 0 <= i < |r| ==> r[i] == SlotFor(prompts[i], i, generate(EnhancedPrompt(prompts[i], modifier)))
  {
    seq(|prompts|, i requires 0 <= i < |prompts| => SlotFor(prompts[i], i, generate(EnhancedPrompt(prompts[i], modifier))))
  }

  predicate SortedByIndex(s: seq<SlotResult>) {
    forall i, j :: 0 <= i < j < |s| ==> s[i].index <= s[j].index
  }

  /** Exchanges `a[j - 1]` and `a[j]`. */
  method SwapDown(a: array<SlotResult>, j: nat)
    requires 0 < j < a.Length
    modifies a
    ensures a[..] == old(a[..])[j - 1 := old(a[j])][j := old(a[j - 1])]
    ensures multiset(a[..]) == multiset(old(a[..]))
  {
    a[j - 1], a[j] := a[j], a[j - 1];
  }

  /** The state of one insertion step: the entry being inserted sits at `j`, no larger
      than anything after it up to `i`, and the rest of `s[..i + 1]` is in order. */
  predicate Inserting(s: seq<SlotResult>, j: nat, i: nat) {
    && j <= i < |s|
    && (forall x, y :: 0 <= x < y <= i && x != j && y != j ==> s[x].index <= s[y].index)
    && (forall k :: j < k <= i ==> s[j].index <= s[k].index)
    && (0 < j < i ==> s[j - 1].index <= s[j + 1].index)
  }

  lemma InsertingStart(s: seq<SlotResult>, i: nat)
    requires i < |s| && SortedByIndex(s[..i])
    ensures Inserting(s, i, i)
  {
    assert forall x, y :: 0 <= x < y < i ==> s[..i][x] == s[x] && s[..i][y] == s[y];
  }

  /** Moving the inserted entry one place down keeps the step's invariant. */
  lemma InsertingSwap(s: seq<SlotResult>, j: nat, i: nat)
    requires Inserting(s, j, i) && 0 < j && s[j - 1].index > s[j].index
    ensures Inserting(s[j - 1 := s[j]][j := s[j - 1]], j - 1, i)
  {
  }

  /** Once the entry before it is no larger, the prefix is sorted. */
  lemma InsertingDone(s: seq<SlotResult>, j: nat, i: nat)
    requires Inserting(s, j, i) && (j == 0 || s[j - 1].index <= s[j].index)
    ensures SortedByIndex(s[..i + 1])
  {
  }

  /** One step of the insertion sort: moves `a[i]` down past the larger entries before it. */
  method InsertAt(a: array<SlotResult>, i: nat)
    requires i < a.Length && SortedByIndex(a[..i])
    modifies a
    ensures SortedByIndex(a[..i + 1])
    ensures multiset(a[..]) == multiset(old(a[..]))
    ensures a[i + 1..] == old(a[i + 1..])
    ensures SortedByIndex(old(a[..i + 1])) ==> a[..] == old(a[..])
  {
    var j: nat := i;
    InsertingStart(a[..], i);
    while j > 0 && a[j - 1].index > a[j].index
      invariant Inserting(a[..], j, i)
      invariant multiset(a[..]) == multiset(old(a[..]))
      invariant a[i + 1..] == old(a[i + 1..])
      invariant j == i ==> a[..] == old(a[..])
      invariant SortedByIndex(old(a[..i + 1])) ==> j == i
    {
      InsertingSwap(a[..], j, i);
      SwapDown(a, j);
      j := j - 1;
    }
    InsertingDone(a[..], j, i);
  }

  /** `results.sort((a, b) => a.index - b.index)`: an insertion sort, stable like the
      JavaScript one, which leaves an already sorted array as it was. */
  method SortByIndex(a: array<SlotResult>)
    modifies a
    ensures SortedByIndex(a[..])
    ensures multiset(a[..]) == multiset(old(a[..]))
    ensures SortedByIndex(old(a[..])) ==> a[..] == old(a[..])
  {
    var i := 0;
    while i < a.Length
      invariant 0 <= i <= a.Length
      invariant SortedByIndex(a[..i])
      invariant multiset(a[..]) == multiset(old(a[..]))
      invariant SortedByIndex(old(a[..])) ==> a[..] == old(a[..])
    {
      InsertAt(a, i);
      i := i + 1;
    }
    assert a[..a.Length] == a[..];
  }

  /** `results.filter(r => r.error).map(r => ({ index, error }))`. */
  function ErrorList(slots: seq<SlotResult>): (es: seq<SlotError>)
    ensures |es| <= |slots|
  {
    if slots == [] then [] else ErrorOf(slots[0]) + ErrorList(slots[1..])
  }

  function ErrorOf(slot: SlotResult): seq<SlotError> {
    if IsSet(slot.error) then [SlotError(slot.index, slot.error.value)] else []
  }

  /** For slots numbered `base`, `base + 1`, … in order, every entry of the error list
      names a slot in range that carries a non-empty message, with that message. */
  lemma {:induction false} ErrorListSound(slots: seq<SlotResult>, base: nat)
    requires forall i :: 0 <= i < |slots| ==> slots[i].index == base + i
    ensures var es := ErrorList(slots);
      forall k :: 0 <= k < |es| ==>
        base <= es[k].index < base + |slots|
        && IsSet(slots[es[k].index - base].error) && es[k].error == slots[es[k].index - base].error.value
  {
    if slots != [] {
      var rest := slots[1..];
      ErrorListSound(rest, base + 1);
      var head := ErrorOf(slots[0]);
      var es := ErrorList(slots);
      assert es == head + ErrorList(rest);
      forall k | 0 <= k < |es|
        ensures base <= es[k].index < base + |slots|
        ensures IsSet(slots[es[k].index - base].error) && es[k].error == slots[es[k].index - base].error.value
      {
        if k >= |head| {
          var e := ErrorList(rest)[k - |head|];
          assert es[k] == e;
          assert rest[e.index - (base + 1)] == slots[e.index - base];
        }
      }
    }
  }

  /** The error list is in strictly ascending order of index. */
  lemma {:induction false} ErrorListAscending(slots: seq<SlotResult>, base: nat)
    requires forall i :: 0 <= i < |slots| ==> slots[i].index == base + i
    ensures var es := ErrorList(slots);
      forall k, l :: 0 <= k < l < |es| ==> es[k].index < es[l].index
  {
    if slots != [] {
      var rest := slots[1..];
      ErrorListAscending(rest, base + 1);
      ErrorListSound(rest, base + 1);
      var head := ErrorOf(slots[0]);
      var es := ErrorList(slots);
      assert es == head + ErrorList(rest);
      forall k, l | 0 <= k < l < |es|
        ensures es[k].index < es[l].index
      {
        assert es[l] == ErrorList(rest)[l - |head|];
        if k >= |head| {
          assert es[k] == ErrorList(rest)[k - |head|];
        }
      }
    }
  }

  predicate Names(es: seq<SlotError>, index: nat) {
    exists k :: 0 <= k < |es| && es[k].index == index
  }

  /** Every slot that carries a non-empty message is named in the error list. */
  lemma {:induction false} ErrorListComplete(slots: seq<SlotResult>, base: nat)
    requires forall i :: 0 <= i < |slots| ==> slots[i].index == base + i
    ensures forall i :: 0 <= i < |slots| && IsSet(slots[i].error) ==> Names(ErrorList(slots), base + i)
  {
    if slots != [] {
      var rest := slots[1..];
      ErrorListComplete(rest, base + 1);
      var head := ErrorOf(slots[0]);
      var es := ErrorList(slots);
      assert es == head + ErrorList(rest);
      forall i | 0 <= i < |slots| && IsSet(slots[i].error)
        ensures Names(es, base + i)
      {
        if i == 0 {
          assert es[0].index == base;
        } else {
          assert rest[i - 1] == slots[i];
          assert Names(ErrorList(rest), base + 1 + (i - 1));
          var k :| 0 <= k < |ErrorList(rest)| && ErrorList(rest)[k].index == base + 1 + (i - 1);
          assert es[|head| + k] == ErrorList(rest)[k];
        }
      }
    }
  }

  /** The text of a thrown error: its message, or a fixed default. */
  function ErrorText(message: Option<string>): (m: string)
    ensures m != ""
    ensures IsSet(message) ==> m == message.value
  {
    if IsSet(message) then message.value else DEFAULT_ERROR
  }

  /** The route handler. `body` is the parsed request, or the message (if any) of the
      error reading it threw; `generate` is Together AI. */
  method HandleGenerateImages(body: Result<ImagesBody, Option<string>>, generate: string -> TogetherReply)
    returns (resp: ImagesResponse)
    ensures body.Err? ==> resp == ImagesFailure(500, ErrorText(body.error))
    ensures body.Ok? && body.value.prompts.None? ==> resp == ImagesFailure(400, INVALID_PROMPTS)
    ensures body.Ok? && body.value.prompts.Some? ==>
      var prompts := body.value.prompts.value;
      var slots := Slots(prompts, Modifier(body.value.style), generate);
      && resp.Images?
      && |resp.images| == |prompts|
      && (forall i :: 0 <= i < |prompts| ==> resp.images[i] == slots[i].url)
      && resp.errors == ErrorList(slots)
  {
    if body.Err? {
      return ImagesFailure(500, ErrorText(body.error));
    }
    if body.value.prompts.None? {
      return ImagesFailure(400, INVALID_PROMPTS);
    }
    var prompts := body.value.prompts.value;
    var slots := Slots(prompts, Modifier(body.value.style), generate);
    var results := new SlotResult[|slots|](i requires 0 <= i < |slots| => slots[i]);
    assert results[..] == slots;
    SortByIndex(results);
    var sorted := results[..];
    resp := Images(seq(|sorted|, i requires 0 <= i < |sorted| => sorted[i].url), ErrorList(sorted));
  }

  /** Every image belongs to its own prompt, a failed slot has no image, and the errors
      name exactly the failed slots whose error has a message, in prompt order. */
  lemma ImagesMatchPrompts(prompts: seq<string>, style: Option<string>, generate: string -> TogetherReply)
    ensures var slots := Slots(prompts, Modifier(style), generate);
      var es := ErrorList(slots);
      && (forall i :: 0 <= i < |prompts| && generate(EnhancedPrompt(prompts[i], Modifier(style))).TogetherThrew? ==>
            slots[i].url.None?)
      && (forall k :: 0 <= k < |es| ==>
            es[k].index < |prompts|
            && generate(EnhancedPrompt(prompts[es[k].index], Modifier(style))) == TogetherThrew(Some(es[k].error))
            && es[k].error != "")
      && (forall k, l :: 0 <= k < l < |es| ==> es[k].index < es[l].index)
      && (forall i :: 0 <= i < |prompts| && generate(EnhancedPrompt(prompts[i], Modifier(style))).TogetherThrew?
                       && IsSet(generate(EnhancedPrompt(prompts[i], Modifier(style))).message) ==>
            Names(es, i))
  {
    var slots := Slots(prompts, Modifier(style), generate);
    ErrorListSound(slots, 0);
    ErrorListAscending(slots, 0);
    ErrorListComplete(slots, 0);
  }
}
