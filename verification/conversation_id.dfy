/**
 Conversation identifiers: the pattern `^[a-zA-Z0-9_-]{1,64}$` they must
 match, the "default" identifier used when none is supplied, and the session
 key `"http:" + id` derived from a resolved identifier.
 */
module ConversationId {
  import opened Http

  /** An inclusive range of characters inside a bracket expression. */
  datatype CharRange = CharRange(lo: char, hi: char)

  /** An anchored bounded repetition `^[cls]{min,max}$`. */
  datatype Repeat = Repeat(cls: seq<CharRange>, min: nat, max: nat)

  /** Membership in a bracket expression given as a list of ranges. */
  predicate InClass(cls: seq<CharRange>, c: char)
  {
    |cls| > 0 && ((cls[0].lo <= c <= cls[0].hi) || InClass(cls[1..], c))
  }

  /** Whole-string match of `^[cls]{min,max}$`: consume one character per
      repetition, and accept at the end of the text once `min` repetitions
      have been seen. */
  predicate FullMatch(p: Repeat, s: string)
    decreases |s|
  {
    if |s| == 0 then p.min == 0
    else
      && p.max > 0
      && InClass(p.cls, s[0])
      && FullMatch(Repeat(p.cls, if p.min > 0 then p.min - 1 else 0, p.max - 1), s[1..])
  }

  /** The bracket expression `[a-zA-Z0-9_-]`. */
  const IdClass: seq<CharRange> :=
    [CharRange('a', 'z'), CharRange('A', 'Z'), CharRange('0', '9'), CharRange('_', '_'), CharRange('-', '-')]

  /** The pattern every resolved conversation identifier matches. */
  const IdPattern: Repeat := Repeat(IdClass, 1, 64)

  /** The identifier used when a request carries none. */
  const DefaultId: string := "default"

  /** The prefix that scopes session keys to the HTTP front door. */
  const KeyPrefix: string := "http:"

  /** The characters an identifier may contain, written out. */
  predicate IsIdChar(c: char)
  {
    ('a' <= c <= 'z') || ('A' <= c <= 'Z') || ('0' <= c <= '9') || c == '_' || c == '-'
  }

  /** The pattern check the handler applies to an identifier. */
  predicate Valid(id: string)
  {
    FullMatch(IdPattern, id)
  }

  /** A bounded repetition matches exactly the strings whose length is within
      the bounds and whose every character is in the class. */
  lemma {:induction false} FullMatchIff(p: Repeat, s: string)
    ensures FullMatch(p, s) <==>
              (p.min <= |s| <= p.max && forall i :: 0 <= i < |s| ==> InClass(p.cls, s[i]))
    decreases |s|
  {
    if |s| > 0 {
      if p.max > 0 {
        var p' := Repeat(p.cls, if p.min > 0 then p.min - 1 else 0, p.max - 1);
        FullMatchIff(p', s[1..]);
        assert forall i :: 1 <= i < |s| ==> s[i] == s[1..][i - 1];
        if (forall i :: 0 <= i < |s| ==> InClass(p.cls, s[i])) {
          assert forall i :: 0 <= i < |s[1..]| ==> InClass(p.cls, s[1..][i]) by {
            forall i | 0 <= i < |s[1..]| ensures InClass(p.cls, s[1..][i]) {
              assert s[1..][i] == s[i + 1];
            }
          }
        }
        if InClass(p.cls, s[0]) && (forall i :: 0 <= i < |s[1..]| ==> InClass(p.cls, s[1..][i])) {
          forall i | 0 <= i < |s| ensures InClass(p.cls, s[i]) {
            if i > 0 { assert s[i] == s[1..][i - 1]; }
          }
        }
      }
    }
  }

  /** The bracket expression `[a-zA-Z0-9_-]` admits exactly the identifier
      characters. */
  lemma IdClassIff(c: char)
    ensures InClass(IdClass, c) <==> IsIdChar(c)
  {
    var c4 := [CharRange('-', '-')];
    var c3 := [CharRange('_', '_')] + c4;
    var c2 := [CharRange('0', '9')] + c3;
    var c1 := [CharRange('A', 'Z')] + c2;
    assert IdClass == [CharRange('a', 'z')] + c1;
    assert InClass(c4, c) <==> c == '-' by { assert c4[1..] == []; }
    assert InClass(c3, c) <==> c == '_' || InClass(c4, c) by { assert c3[1..] == c4; }
    assert InClass(c2, c) <==> ('0' <= c <= '9') || InClass(c3, c) by { assert c2[1..] == c3; }
    assert InClass(c1, c) <==> ('A' <= c <= 'Z') || InClass(c2, c) by { assert c1[1..] == c2; }
    assert InClass(IdClass, c) <==> ('a' <= c <= 'z') || InClass(c1, c) by { assert IdClass[1..] == c1; }
  }

  /** An identifier matches the pattern iff it has 1 to 64 characters, each a
      letter, a digit, `_` or `-`. */
  lemma ValidIff(id: string)
    ensures Valid(id) <==> (1 <= |id| <= 64 && forall i :: 0 <= i < |id| ==> IsIdChar(id[i]))
  {
    FullMatchIff(IdPattern, id);
    forall i | 0 <= i < |id| ensures InClass(IdClass, id[i]) <==> IsIdChar(id[i]) {
      IdClassIff(id[i]);
    }
  }

  /** Resolve the identifier a request carries: an empty one becomes
      "default", and the result must match the pattern. */
  function Resolve(raw: string): (r: Option<string>)
    ensures raw == "" ==> r == Some(DefaultId)
    ensures raw != "" ==>
              (r.Some? <==> (|raw| <= 64 && forall i :: 0 <= i < |raw| ==> IsIdChar(raw[i])))
    ensures r.Some? ==> Valid(r.value) && (raw != "" ==> r.value == raw)
  {
    ValidIff(raw);
    ValidIff(DefaultId);
    var id := if raw == "" then DefaultId else raw;
    if Valid(id) then Some(id) else None
  }

  /** The session key under which a conversation is serialized. */
  function SessionKey(id: string): (key: string)
    ensures |key| == |KeyPrefix| + |id| && key[..|KeyPrefix|] == KeyPrefix && key[|KeyPrefix|..] == id
  {
    KeyPrefix + id
  }

  /** Recover the conversation identifier from a session key. */
  function IdOfKey(key: string): string
    requires |key| >= |KeyPrefix|
  {
    key[|KeyPrefix|..]
  }

  /** The identifier is recoverable from its session key. */
  lemma {:induction false} KeyRoundTrip(id: string)
    ensures IdOfKey(SessionKey(id)) == id
  {
    assert (KeyPrefix + id)[|KeyPrefix|..] == id;
  }

  /** Two conversations share a session key iff their identifiers are equal. */
  lemma SessionKeyInjective(a: string, b: string)
    ensures SessionKey(a) == SessionKey(b) <==> a == b
  {
    if SessionKey(a) == SessionKey(b) {
      KeyRoundTrip(a);
      KeyRoundTrip(b);
    }
  }

  /** An identifier of 64 allowed characters is accepted; one more character
      is rejected. */
  lemma LengthBoundary(id: string)
    requires forall i :: 0 <= i < |id| ==> IsIdChar(id[i])
    ensures |id| == 64 ==> Resolve(id) == Some(id)
    ensures |id| == 65 ==> Resolve(id) == None
  {
  }

  /** An identifier containing `/`, a space or `<` is rejected. */
  lemma ForbiddenCharRejected(id: string, i: nat)
    requires i < |id|
    requires id[i] == '/' || id[i] == ' ' || id[i] == '<'
    ensures Resolve(id) == None
  {
  }
}
