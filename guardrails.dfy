/** The content guardrails of the agent: four pattern classifiers, the output
    validator, the secret sanitizer and the engagement check.

    Python's regular-expression engine is not re-implemented. It is a parameter
    `re: Regex` that answers `re.search` and `re.sub` for each named pattern;
    only the long-hex pattern `[a-f0-9]{64}` is given a concrete meaning here, and
    the `@?aiathena` mention check is concrete over ASCII. */
module Guardrails {
  import opened Util

  /** One constructor per regular expression of the four pattern lists. */
  datatype Pattern =
    // secret patterns
    | ApiKeyAssignment | BearerToken | GoogleApiKey | OpenAiKey | GitHubToken
    | LongHex | UserPath | EnvVariable
    // manipulation patterns
    | ActionRequest | InstructionOverride | PersonaHijack | SecretProbe
    | DirectCommand | NegativeCommand | JailbreakTerm
    // harmful-content patterns
    | ViolenceTerm | FraudTerm | ReturnClaim | PumpScheme | HateTerm
    // self-reference patterns
    | OwnInternals | ModelVendor | ClientCredential

  const SecretPatterns: seq<Pattern> :=
    [ApiKeyAssignment, BearerToken, GoogleApiKey, OpenAiKey, GitHubToken, LongHex, UserPath, EnvVariable]
  const ManipulationPatterns: seq<Pattern> :=
    [ActionRequest, InstructionOverride, PersonaHijack, SecretProbe, DirectCommand, NegativeCommand, JailbreakTerm]
  const HarmfulContentPatterns: seq<Pattern> :=
    [ViolenceTerm, FraudTerm, ReturnClaim, PumpScheme, HateTerm]
  const SelfReferencePatterns: seq<Pattern> :=
    [OwnInternals, ModelVendor, ClientCredential]

  /** The regular-expression engine: `search(p, s)` stands for `re.search(p, s)` having
      found a match, `sub(p, s)` for `re.sub(p, '[REDACTED]', s)`. */
  datatype Regex = Regex(search: (Pattern, string) -> bool, sub: (Pattern, string) -> string)

  /** What the engine obeys when the replacement is `[REDACTED]`:
      - a pattern that does not occur leaves the text as it is;
      - a substitution never creates a run of 64 hexadecimal digits;
      - a substitution leaves no match of its own secret pattern behind, and creates no
        match of another secret pattern.
      The secret patterns have no anchors, word boundaries or `.`, and none of their
      character classes holds `[` or `]`, so no match can reach into the marker; the
      marker itself matches none of them. Every match in the substituted text therefore
      lies in a kept piece of the input, and a match the scan skipped over would have
      been found at that position. */
  ghost predicate EngineLaws(re: Regex) {
    && (forall p, s :: p != LongHex && !re.search(p, s) ==> re.sub(p, s) == s)
    && (forall p, s :: p != LongHex && !HasHexRun(s) ==> !HasHexRun(re.sub(p, s)))
    && (forall p, s :: p in SecretPatterns && p != LongHex ==> !re.search(p, re.sub(p, s)))
    && (forall p, q, s ::
          p in SecretPatterns && q in SecretPatterns && p != LongHex && q != LongHex && !re.search(q, s)
          ==> !re.search(q, re.sub(p, s)))
    && (forall q, s :: q in SecretPatterns && q != LongHex && !re.search(q, s) ==> !re.search(q, RedactHex(s)))
  }

  const Redacted: string := "[REDACTED]"
  const HexRunLength: nat := 64

  // ---------------------------------------------------------------------------
  // The concrete pattern `[a-f0-9]{64}` (no case-insensitive flag)

  predicate IsHexDigit(c: char) {
    '0' <= c <= '9' || 'a' <= c <= 'f'
  }

  predicate AllHex(t: string) {
    forall k | 0 <= k < |t| :: IsHexDigit(t[k])
  }

  /** `re.search(r'[a-f0-9]{64}', s)` finds a match. */
  predicate HasHexRun(s: string) {
    exists i | 0 <= i <= |s| - HexRunLength :: HexRunAt(s, i)
  }

  predicate HexRunAt(s: string, i: nat)
    requires i + HexRunLength <= |s|
  {
    AllHex(s[i..i + HexRunLength])
  }

  /** `re.sub(r'[a-f0-9]{64}', '[REDACTED]', s)`: scanning left to right, every run of 64
      hexadecimal digits that starts where the scan stands is replaced by the marker. */
  function RedactHex(s: string): string
    decreases |s|
  {
    if |s| < HexRunLength then s
    else if AllHex(s[..HexRunLength]) then Redacted + RedactHex(s[HexRunLength..])
    else [s[0]] + RedactHex(s[1..])
  }

  lemma AllHexAt(s: string, j: int)
    ensures AllHex(s) && 0 <= j < |s| ==> IsHexDigit(s[j])
  {
  }

  lemma AllHexSlice(s: string, from: nat, to: nat)
    requires from <= to <= |s|
    ensures AllHex(s) ==> AllHex(s[from..to])
  {
    assert forall k | 0 <= k < to - from :: s[from..to][k] == s[from + k];
  }

  /** An all-hexadecimal prefix of the redacted text was copied unchanged from the input. */
  lemma {:induction false} HexPrefixCopied(t: string, k: nat)
    requires k <= |RedactHex(t)| && AllHex(RedactHex(t)[..k])
    ensures k <= |t| && RedactHex(t)[..k] == t[..k]
    decreases |t|
  {
    if |t| < HexRunLength || k == 0 {
    } else if AllHex(t[..HexRunLength]) {
      assert RedactHex(t) == Redacted + RedactHex(t[HexRunLength..]);
      assert RedactHex(t)[..k][0] == Redacted[0];
      AllHexAt(RedactHex(t)[..k], 0);
      assert false;
    } else {
      var out := RedactHex(t);
      var rest := RedactHex(t[1..]);
      assert out == [t[0]] + rest;
      assert out[..k][1..k] == out[1..k];
      assert out[1..k] == rest[..k - 1];
      AllHexSlice(out[..k], 1, k);
      HexPrefixCopied(t[1..], k - 1);
      assert out[..k] == [t[0]] + rest[..k - 1];
    }
  }

  /** A slice that starts past `a` in `a + b` is a slice of `b`. */
  lemma SliceAfterPrefix(a: string, b: string, i: nat, n: nat)
    requires |a| <= i && i + n <= |a| + |b|
    ensures (a + b)[i..i + n] == b[i - |a|..i - |a| + n]
  {
    var x, y := (a + b)[i..i + n], b[i - |a|..i - |a| + n];
    forall k | 0 <= k < n
      ensures x[k] == y[k]
    {
    }
  }

  /** A window that starts inside the marker ends on or after its closing bracket, so
      it is not a hexadecimal run. */
  lemma MarkerBreaksRun(rest: string, i: nat)
    requires i < |Redacted| && i + HexRunLength <= |Redacted| + |rest|
    ensures !HexRunAt(Redacted + rest, i)
  {
    var w := (Redacted + rest)[i..i + HexRunLength];
    assert w[|Redacted| - 1 - i] == ']';
  }

  /** After redaction no run of 64 hexadecimal digits is left. */
  lemma {:induction false} RedactHexLeavesNoRun(s: string)
    ensures !HasHexRun(RedactHex(s))
    decreases |s|
  {
    var out := RedactHex(s);
    if |s| < HexRunLength {
    } else if AllHex(s[..HexRunLength]) {
      var rest := RedactHex(s[HexRunLength..]);
      RedactHexLeavesNoRun(s[HexRunLength..]);
      assert out == Redacted + rest;
      forall i | 0 <= i <= |out| - HexRunLength
        ensures !HexRunAt(out, i)
      {
        if i < |Redacted| {
          MarkerBreaksRun(rest, i);
        } else {
          SliceAfterPrefix(Redacted, rest, i, HexRunLength);
          assert !HexRunAt(rest, i - |Redacted|);
        }
      }
    } else {
      var rest := RedactHex(s[1..]);
      RedactHexLeavesNoRun(s[1..]);
      assert out == [s[0]] + rest;
      forall i | 0 <= i <= |out| - HexRunLength
        ensures !HexRunAt(out, i)
      {
        if i == 0 {
          HexRunAtHeadCopied(s);
          assert out[0..HexRunLength] == out[..HexRunLength];
        } else {
          SliceAfterPrefix([s[0]], rest, i, HexRunLength);
          assert !HexRunAt(rest, i - 1);
        }
      }
    }
  }

  /** A hexadecimal run at the head of `[s[0]] + RedactHex(s[1..])` is the head of `s`. */
  lemma HexRunAtHeadCopied(s: string)
    requires 1 <= |s| && HexRunLength <= 1 + |RedactHex(s[1..])|
    ensures AllHex(([s[0]] + RedactHex(s[1..]))[..HexRunLength]) ==>
      HexRunLength <= |s| && AllHex(s[..HexRunLength])
  {
    var rest := RedactHex(s[1..]);
    var out := [s[0]] + rest;
    if AllHex(out[..HexRunLength]) {
      assert out[..HexRunLength][1..HexRunLength] == rest[..HexRunLength - 1];
      AllHexSlice(out[..HexRunLength], 1, HexRunLength);
      HexPrefixCopied(s[1..], HexRunLength - 1);
      assert out[..HexRunLength] == s[..HexRunLength];
    }
  }

  /** Text without a hexadecimal run passes through redaction unchanged. */
  lemma {:induction false} RedactHexKeepsCleanText(s: string)
    requires !HasHexRun(s)
    ensures RedactHex(s) == s
    decreases |s|
  {
    if |s| >= HexRunLength {
      assert !HexRunAt(s, 0);
      assert s[..HexRunLength] == s[0..HexRunLength];
      assert !HasHexRun(s[1..]) by {
        if i :| 0 <= i <= |s[1..]| - HexRunLength && HexRunAt(s[1..], i) {
          assert s[1..][i..i + HexRunLength] == s[i + 1..i + 1 + HexRunLength];
          assert HexRunAt(s, i + 1);
        }
      }
      RedactHexKeepsCleanText(s[1..]);
      assert s == [s[0]] + s[1..];
    }
  }

  /** Redaction changes the text exactly when it holds a hexadecimal run, and redacting
      twice is redacting once. */
  lemma RedactHexFixedPoints(s: string)
    ensures RedactHex(s) == s <==> !HasHexRun(s)
    ensures RedactHex(RedactHex(s)) == RedactHex(s)
  {
    RedactHexLeavesNoRun(s);
    RedactHexKeepsCleanText(RedactHex(s));
    if !HasHexRun(s) {
      RedactHexKeepsCleanText(s);
    }
  }

  // ---------------------------------------------------------------------------
  // Searching and substituting with one pattern

  function Search(re: Regex, p: Pattern, s: string): bool {
    if p == LongHex then HasHexRun(s) else re.search(p, s)
  }

  function Sub(re: Regex, p: Pattern, s: string): string {
    if p == LongHex then RedactHex(s) else re.sub(p, s)
  }

  /** Under the engine laws a non-matching pattern leaves the text alone and no
      substitution creates a hexadecimal run. */
  lemma SubLaws(re: Regex, p: Pattern, s: string)
    requires EngineLaws(re)
    ensures !Search(re, p, s) ==> Sub(re, p, s) == s
    ensures !HasHexRun(s) ==> !HasHexRun(Sub(re, p, s))
  {
    if p == LongHex {
      RedactHexLeavesNoRun(s);
      if !HasHexRun(s) {
        RedactHexKeepsCleanText(s);
      }
    }
  }

  /** Under the engine laws a secret pattern's substitution leaves no match of it, and a
      secret pattern absent before any secret substitution is absent after it. */
  lemma SecretSubLaws(re: Regex, p: Pattern, q: Pattern, s: string)
    requires EngineLaws(re)
    requires p in SecretPatterns && q in SecretPatterns
    ensures !Search(re, p, Sub(re, p, s))
    ensures !Search(re, q, s) ==> !Search(re, q, Sub(re, p, s))
  {
    if p == LongHex {
      RedactHexLeavesNoRun(s);
    }
  }

  // ---------------------------------------------------------------------------
  // The four classifiers

  /** The early-return loop shared by the `contains_*` functions: true as soon as some
      pattern of the list matches. */
  function AnyMatch(re: Regex, ps: seq<Pattern>, text: string): (r: bool)
    ensures r <==> exists p :: p in ps && Search(re, p, text)
    decreases |ps|
  {
    if |ps| == 0 then false
    else if Search(re, ps[0], text) then true
    else AnyMatch(re, ps[1..], text)
  }

  /** The order of a pattern list does not affect its classifier. */
  lemma {:induction false} PatternOrderIrrelevant(re: Regex, ps: seq<Pattern>, qs: seq<Pattern>, text: string)
    requires multiset(ps) == multiset(qs)
    ensures AnyMatch(re, ps, text) == AnyMatch(re, qs, text)
  {
    forall p | p in ps ensures p in qs {
      assert p in multiset(ps);
    }
    forall p | p in qs ensures p in ps {
      assert p in multiset(qs);
    }
  }

  function ContainsSecrets(re: Regex, text: string): (r: bool)
    ensures r <==> exists p :: p in SecretPatterns && Search(re, p, text)
  {
    AnyMatch(re, SecretPatterns, text)
  }

  function ContainsManipulation(re: Regex, text: string): (r: bool)
    ensures r <==> exists p :: p in ManipulationPatterns && Search(re, p, text)
  {
    AnyMatch(re, ManipulationPatterns, text)
  }

  function ContainsHarmfulContent(re: Regex, text: string): (r: bool)
    ensures r <==> exists p :: p in HarmfulContentPatterns && Search(re, p, text)
  {
    AnyMatch(re, HarmfulContentPatterns, text)
  }

  function ContainsSelfReference(re: Regex, text: string): (r: bool)
    ensures r <==> exists p :: p in SelfReferencePatterns && Search(re, p, text)
  {
    AnyMatch(re, SelfReferencePatterns, text)
  }

  // ---------------------------------------------------------------------------
  // The validator

  /** The `(is_safe, reason)` pair: the reason is present exactly when the text is unsafe. */
  datatype Verdict = Safe | Unsafe(reason: string)

  const SecretsReason: string := "Content contains potential secrets"
  const HarmfulReason: string := "Content contains harmful or prohibited material"
  const SelfReferenceReason: string := "Content reveals internal implementation details"
  const TooShortReason: string := "Content too short to be valuable"
  const TooLongReason: string := "Content too long"
  const MinLength: nat := 10
  const MaxLength: nat := 5000

  /** `validate_output_content`: the checks run in the order secrets, harmful content,
      self-reference, too short, too long; each reason is returned exactly when its check
      is the first one to fail. */
  function ValidateOutput(re: Regex, text: string): (v: Verdict)
    ensures v.Safe? <==>
      !ContainsSecrets(re, text) && !ContainsHarmfulContent(re, text) && !ContainsSelfReference(re, text)
      && MinLength <= |text| <= MaxLength
    ensures v == Unsafe(SecretsReason) <==> ContainsSecrets(re, text)
    ensures v == Unsafe(HarmfulReason) <==> !ContainsSecrets(re, text) && ContainsHarmfulContent(re, text)
    ensures v == Unsafe(SelfReferenceReason) <==>
      !ContainsSecrets(re, text) && !ContainsHarmfulContent(re, text) && ContainsSelfReference(re, text)
    ensures v == Unsafe(TooShortReason) <==>
      !ContainsSecrets(re, text) && !ContainsHarmfulContent(re, text) && !ContainsSelfReference(re, text)
      && |text| < MinLength
    ensures v == Unsafe(TooLongReason) <==>
      !ContainsSecrets(re, text) && !ContainsHarmfulContent(re, text) && !ContainsSelfReference(re, text)
      && MaxLength < |text|
  {
    if ContainsSecrets(re, text) then Unsafe(SecretsReason)
    else if ContainsHarmfulContent(re, text) then Unsafe(HarmfulReason)
    else if ContainsSelfReference(re, text) then Unsafe(SelfReferenceReason)
    else if |text| < MinLength then Unsafe(TooShortReason)
    else if |text| > MaxLength then Unsafe(TooLongReason)
    else Safe
  }

  /** Any text holding 64 consecutive hexadecimal digits is refused as a secret, whatever
      the engine answers for the other patterns. */
  lemma LongHexIsRefused(re: Regex, text: string)
    requires HasHexRun(text)
    ensures ContainsSecrets(re, text)
    ensures ValidateOutput(re, text) == Unsafe(SecretsReason)
  {
    assert SecretPatterns[5] == LongHex;
    assert Search(re, LongHex, text);
  }

  // ---------------------------------------------------------------------------
  // The sanitizer

  /** The text after substituting the patterns `ps` one after the other, first to last. */
  function Redaction(re: Regex, ps: seq<Pattern>, text: string): string
    decreases |ps|
  {
    if |ps| == 0 then text else Sub(re, ps[|ps| - 1], Redaction(re, ps[..|ps| - 1], text))
  }

  /** What `sanitize_content` computes: every secret pattern substituted in list order. */
  function Sanitized(re: Regex, text: string): string {
    Redaction(re, SecretPatterns, text)
  }

  /** Patterns none of which occur leave the text unchanged. */
  lemma {:induction false} RedactionKeepsCleanText(re: Regex, ps: seq<Pattern>, text: string)
    requires EngineLaws(re)
    requires forall p :: p in ps ==> !Search(re, p, text)
    ensures Redaction(re, ps, text) == text
    decreases |ps|
  {
    if |ps| > 0 {
      var front := ps[..|ps| - 1];
      assert forall p :: p in front ==> p in ps;
      RedactionKeepsCleanText(re, front, text);
      SubLaws(re, ps[|ps| - 1], text);
    }
  }

  /** Once the long-hex pattern has been substituted, no hexadecimal run remains, and the
      later substitutions do not bring one back. */
  lemma {:induction false} RedactionRemovesHexRuns(re: Regex, ps: seq<Pattern>, text: string)
    requires EngineLaws(re)
    requires LongHex in ps
    ensures !HasHexRun(Redaction(re, ps, text))
    decreases |ps|
  {
    var last := ps[|ps| - 1];
    var front := ps[..|ps| - 1];
    if last == LongHex {
      RedactHexLeavesNoRun(Redaction(re, front, text));
    } else {
      assert ps == front + [last];
      assert LongHex in front;
      RedactionRemovesHexRuns(re, front, text);
      SubLaws(re, last, Redaction(re, front, text));
    }
  }

  /** After substituting secret patterns one after the other, none of them matches. */
  lemma {:induction false} RedactionLeavesNoSecret(re: Regex, ps: seq<Pattern>, text: string)
    requires EngineLaws(re)
    requires forall p :: p in ps ==> p in SecretPatterns
    ensures forall q :: q in ps ==> !Search(re, q, Redaction(re, ps, text))
    decreases |ps|
  {
    if |ps| > 0 {
      var last := ps[|ps| - 1];
      var front := ps[..|ps| - 1];
      assert ps == front + [last];
      RedactionLeavesNoSecret(re, front, text);
      var before := Redaction(re, front, text);
      forall q | q in ps
        ensures !Search(re, q, Sub(re, last, before))
      {
        SecretSubLaws(re, last, q, before);
      }
    }
  }

  /** `sanitize_content`: each secret pattern in turn is substituted by the marker. */
  method Sanitize(re: Regex, text: string) returns (sanitized: string)
    ensures sanitized == Sanitized(re, text)
    ensures EngineLaws(re) && !ContainsSecrets(re, text) ==> sanitized == text
    ensures EngineLaws(re) ==> !HasHexRun(sanitized) && !ContainsSecrets(re, sanitized)
  {
    sanitized := text;
    for i := 0 to |SecretPatterns|
      invariant sanitized == Redaction(re, SecretPatterns[..i], text)
    {
      assert SecretPatterns[..i + 1][..i] == SecretPatterns[..i];
      sanitized := Sub(re, SecretPatterns[i], sanitized);
    }
    assert SecretPatterns[..|SecretPatterns|] == SecretPatterns;
    if EngineLaws(re) {
      if !ContainsSecrets(re, text) {
        RedactionKeepsCleanText(re, SecretPatterns, text);
      }
      assert SecretPatterns[5] == LongHex;
      RedactionRemovesHexRuns(re, SecretPatterns, text);
      RedactionLeavesNoSecret(re, SecretPatterns, text);
    }
  }

  /** Text that passed validation is never changed by sanitizing: the sanitizing the tools
      do after validation has no effect under the engine laws. */
  lemma SanitizeAfterValidationIsIdentity(re: Regex, text: string)
    requires EngineLaws(re)
    requires ValidateOutput(re, text).Safe?
    ensures Sanitized(re, text) == text
  {
    RedactionKeepsCleanText(re, SecretPatterns, text);
  }

  /** Sanitizing leaves no secret, so sanitizing twice is sanitizing once; and it always
      removes the 64-digit hexadecimal runs. */
  lemma SanitizeIdempotent(re: Regex, text: string)
    requires EngineLaws(re)
    ensures !ContainsSecrets(re, Sanitized(re, text))
    ensures Sanitized(re, Sanitized(re, text)) == Sanitized(re, text)
    ensures !HasHexRun(Sanitized(re, text))
  {
    RedactionLeavesNoSecret(re, SecretPatterns, text);
    RedactionKeepsCleanText(re, SecretPatterns, Sanitized(re, text));
    assert SecretPatterns[5] == LongHex;
    RedactionRemovesHexRuns(re, SecretPatterns, text);
  }

  // ---------------------------------------------------------------------------
  // The engagement check

  const PostManipulationReason: string := "Post contains manipulation attempt"
  const CommentManipulationReason: string := "Comment contains manipulation targeting AIATHENA"
  const AgentName: string := "aiathena"

  function LowerAscii(c: char): char {
    if 'A' <= c <= 'Z' then (c as int + 32) as char else c
  }

  /** `t` equals the lower-case word `w` when ASCII letters are compared without case. */
  predicate EqualsIgnoringCase(t: string, w: string) {
    |t| == |w| && forall k | 0 <= k < |t| :: LowerAscii(t[k]) == w[k]
  }

  /** `re.search(r'(?i)@?aiathena', s)` finds a match; the optional `@` never matters. */
  predicate MentionsAgent(s: string) {
    exists i | 0 <= i <= |s| - |AgentName| :: MentionAt(s, i)
  }

  predicate MentionAt(s: string, i: nat)
    requires i + |AgentName| <= |s|
  {
    EqualsIgnoringCase(s[i..i + |AgentName|], AgentName)
  }

  /** The loop over the comments: some comment both manipulates and names the agent. */
  function SomeCommentTargetsAgent(re: Regex, comments: seq<string>): (r: bool)
    ensures r <==> exists c :: c in comments && ContainsManipulation(re, c) && MentionsAgent(c)
    decreases |comments|
  {
    if |comments| == 0 then false
    else if ContainsManipulation(re, comments[0]) && MentionsAgent(comments[0]) then true
    else SomeCommentTargetsAgent(re, comments[1..])
  }

  /** `is_safe_to_engage`: a manipulating post is refused whatever the comments say;
      otherwise a comment refuses only when it manipulates and names the agent. */
  function IsSafeToEngage(re: Regex, post: string, comments: Option<seq<string>>): (v: Verdict)
    ensures ContainsManipulation(re, post) ==> v == Unsafe(PostManipulationReason)
    ensures !ContainsManipulation(re, post) ==>
      (v == Unsafe(CommentManipulationReason) <==>
        comments.Some? && exists c :: c in comments.value && ContainsManipulation(re, c) && MentionsAgent(c))
    ensures v == Unsafe(PostManipulationReason) <==> ContainsManipulation(re, post)
    ensures v == Safe <==>
      && !ContainsManipulation(re, post)
      && !(comments.Some? && exists c :: c in comments.value && ContainsManipulation(re, c) && MentionsAgent(c))
    ensures v == Safe || v == Unsafe(PostManipulationReason) || v == Unsafe(CommentManipulationReason)
  {
    if ContainsManipulation(re, post) then Unsafe(PostManipulationReason)
    else if comments.Some? && |comments.value| > 0 && SomeCommentTargetsAgent(re, comments.value) then
      Unsafe(CommentManipulationReason)
    else Safe
  }

  /** Comments that do not name the agent never change the verdict; with no comments, or
      an empty list, the verdict depends on the post alone. */
  lemma UntargetedCommentsIgnored(re: Regex, post: string, comments: seq<string>)
    requires forall c :: c in comments ==> !MentionsAgent(c)
    ensures IsSafeToEngage(re, post, Some(comments)) == IsSafeToEngage(re, post, None)
    ensures IsSafeToEngage(re, post, None) == IsSafeToEngage(re, post, Some([]))
    ensures IsSafeToEngage(re, post, None) == if ContainsManipulation(re, post) then Unsafe(PostManipulationReason) else Safe
  {
  }
}
