/** The version comparator (internal/version.go). */
module SortableVersion {
  import opened StringOrder

  predicate IsSeparator(c: char) { c == '.' || c == '_' || c == '-' }

  predicate IsDigit(c: char) { '0' <= c <= '9' }

  predicate HasDigit(t: string) { exists i :: 0 <= i < |t| && IsDigit(t[i]) }

  predicate AllDigits(t: string) { forall i :: 0 <= i < |t| ==> IsDigit(t[i]) }

  function Value(t: string): nat
    requires AllDigits(t)
  {
    if t == "" then 0 else Value(t[..|t| - 1]) * 10 + (t[|t| - 1] as int - '0' as int)
  }

  /** Digit texts of one length compare like texts. */
  lemma {:induction false} ValueOrder(s: string, t: string)
    requires AllDigits(s) && AllDigits(t) && |s| == |t|
    ensures Value(s) < Value(t) <==> StringLess(s, t)
    ensures Value(s) == Value(t) <==> s == t
  {
    if s != "" {
      var k := |s| - 1;
      ValueOrder(s[..k], t[..k]);
      assert s == s[..k] + [s[k]] && t == t[..k] + [t[k]];
      StringLessNext(s[..k], t[..k], s[k], t[k]);
      var v, w, x, y := Value(s[..k]), Value(t[..k]), s[k] as int - '0' as int, t[k] as int - '0' as int;
      assert Value(s) == v * 10 + x && Value(t) == w * 10 + y && (x < y <==> s[k] < t[k]) && (x == y <==> s[k] == t[k]);
      assert s == t <==> s[..k] == t[..k] && s[k] == t[k];
      hide *;
      LastDigit(v, w, x, y);
    }
  }

  lemma LastDigit(v: nat, w: nat, x: int, y: int)
    requires 0 <= x <= 9 && 0 <= y <= 9
    ensures v * 10 + x < w * 10 + y <==> v < w || (v == w && x < y)
    ensures v * 10 + x == w * 10 + y <==> v == w && x == y
  {
  }

  function Power(k: nat): nat { if k == 0 then 1 else 10 * Power(k - 1) }

  /** The number of digits bounds the value from above and, without a leading zero, from below. */
  lemma {:induction false} ValueBounds(t: string)
    requires AllDigits(t)
    ensures Value(t) < Power(|t|)
    ensures t != "" && t[0] != '0' ==> Power(|t| - 1) <= Value(t)
  {
    if t != "" {
      var k := |t| - 1;
      ValueBounds(t[..k]);
      if k > 0 {
        assert t[..k][0] == t[0];
      }
    }
  }

  lemma {:induction false} PowerRises(k: nat, l: nat)
    requires k <= l
    ensures Power(k) <= Power(l)
  {
    if k < l {
      PowerRises(k, l - 1);
    }
  }

  predicate NoLeadingZero(t: string) { t != "" && (|t| > 1 ==> t[0] != '0') }

  /** Numbers compare by their length and then digit by digit. */
  lemma NumbersCompare(s: string, t: string)
    requires AllDigits(s) && AllDigits(t) && NoLeadingZero(s) && NoLeadingZero(t)
    ensures Value(s) < Value(t) <==> |s| < |t| || (|s| == |t| && StringLess(s, t))
  {
    ValueBounds(s);
    ValueBounds(t);
    if |s| == |t| {
      ValueOrder(s, t);
    } else if |s| < |t| {
      PowerRises(|s|, |t| - 1);
    } else {
      PowerRises(|t|, |s| - 1);
    }
  }

  /** Leading zeros do not count. */
  lemma {:induction false} LeadingZero(t: string)
    requires AllDigits(t)
    ensures AllDigits("0" + t) && Value("0" + t) == Value(t)
  {
    if t != "" {
      var k := |t| - 1;
      LeadingZero(t[..k]);
      assert ("0" + t)[..k + 1] == "0" + t[..k];
    } else {
      assert ("0" + t)[..0] == "";
    }
  }

  const MAX_INT: int := 0x7fff_ffff_ffff_ffff

  function Saturated(n: nat): int { if n > MAX_INT then MAX_INT else n }

  /** strconv.Atoi without its error: 0 for what is no number, the largest int for what is too large. */
  function Atoi(t: string): int {
    if |t| > 1 && t[0] == '+' && AllDigits(t[1..]) then Saturated(Value(t[1..]))
    else if t != "" && AllDigits(t) then Saturated(Value(t))
    else 0
  }

  // ----- Tokens

  /** regexp.Split on single separators: the stretches between them, empty ones included. */
  function Pieces(s: string): (r: seq<string>)
    ensures r != []
  {
    if s == "" then [""]
    else
      var r := Pieces(s[..|s| - 1]);
      if IsSeparator(s[|s| - 1]) then r + [""]
      else r[..|r| - 1] + [r[|r| - 1] + [s[|s| - 1]]]
  }

  function NonEmpty(ps: seq<string>): seq<string> {
    if ps == [] then []
    else NonEmpty(ps[..|ps| - 1]) + if ps[|ps| - 1] == "" then [] else [ps[|ps| - 1]]
  }

  function Tokens(s: string): seq<string> { NonEmpty(Pieces(s)) }

  /** The text without its separators. */
  function Stripped(s: string): string {
    if s == "" then "" else Stripped(s[..|s| - 1]) + if IsSeparator(s[|s| - 1]) then "" else [s[|s| - 1]]
  }

  function Joined(ps: seq<string>): string {
    if ps == [] then "" else Joined(ps[..|ps| - 1]) + ps[|ps| - 1]
  }

  predicate IsToken(t: string) { t != "" && forall i :: 0 <= i < |t| ==> !IsSeparator(t[i]) }

  lemma {:induction false} PiecesHaveNoSeparator(s: string)
    ensures forall p, i :: p in Pieces(s) && 0 <= i < |p| ==> !IsSeparator(p[i])
    ensures Joined(Pieces(s)) == Stripped(s)
  {
    if s != "" {
      var r, c := Pieces(s[..|s| - 1]), s[|s| - 1];
      PiecesHaveNoSeparator(s[..|s| - 1]);
      if IsSeparator(c) {
        assert (r + [""])[..|r|] == r;
      } else {
        assert Pieces(s)[..|r| - 1] == r[..|r| - 1];
        assert Pieces(s)[|r| - 1] == r[|r| - 1] + [c];
      }
    }
  }

  lemma {:induction false} DroppingEmptyPieces(ps: seq<string>)
    ensures forall t :: t in NonEmpty(ps) <==> t in ps && t != ""
    ensures Joined(NonEmpty(ps)) == Joined(ps)
  {
    if ps != [] {
      var init, last := ps[..|ps| - 1], ps[|ps| - 1];
      DroppingEmptyPieces(init);
      assert ps == init + [last];
      if last == "" {
        assert NonEmpty(ps) == NonEmpty(init);
        assert Joined(ps) == Joined(init) + "" == Joined(init);
      } else {
        assert (NonEmpty(init) + [last])[..|NonEmpty(init)|] == NonEmpty(init);
      }
    }
  }

  /** Tokens are non-empty and free of separators, and together they are all of the text but its
      separators, in order. */
  lemma TokensCoverTheText(s: string)
    ensures forall t :: t in Tokens(s) ==> IsToken(t)
    ensures Joined(Tokens(s)) == Stripped(s)
  {
    PiecesHaveNoSeparator(s);
    DroppingEmptyPieces(Pieces(s));
  }

  /** From i to j without a separator, and with one, or the end of the text, on either side. */
  predicate Stretch(s: string, i: int, j: int) {
    && 0 <= i < j <= |s| && (forall p :: i <= p < j ==> !IsSeparator(s[p]))
    && (i == 0 || IsSeparator(s[i - 1])) && (j == |s| || IsSeparator(s[j]))
  }

  /** Token k is the stretch from starts[k] to ends[k], and no character outside separators is left over. */
  ghost predicate Cuts(s: string, tokens: seq<string>, starts: seq<int>, ends: seq<int>) {
    && |starts| == |ends| == |tokens|
    && (forall k :: 0 <= k < |tokens| ==> Stretch(s, starts[k], ends[k]) && tokens[k] == s[starts[k]..ends[k]])
    && (forall k, l :: 0 <= k < l < |tokens| ==> ends[k] < starts[l])
    && (forall p :: 0 <= p < |s| && !IsSeparator(s[p]) ==> Covered(starts, ends, p))
  }

  ghost predicate Covered(starts: seq<int>, ends: seq<int>, p: int) {
    exists k :: 0 <= k < |starts| && k < |ends| && starts[k] <= p < ends[k]
  }

  /** What the last piece is: everything behind the last separator. */
  lemma {:induction false} LastPiece(s: string) returns (open: nat)
    ensures open <= |s| && Pieces(s)[|Pieces(s)| - 1] == s[open..] && (open == 0 || IsSeparator(s[open - 1]))
    ensures forall p :: open <= p < |s| ==> !IsSeparator(s[p])
  {
    if s == "" {
      open := 0;
    } else {
      var s0, c := s[..|s| - 1], s[|s| - 1];
      var o := LastPiece(s0);
      if IsSeparator(c) {
        open := |s|;
      } else {
        open := o;
        assert s[o..] == s0[o..] + [c];
      }
    }
  }

  /** One more separator cuts nothing. */
  lemma CutsAtSeparator(s: string, c: char, tokens: seq<string>, starts: seq<int>, ends: seq<int>)
    requires Cuts(s, tokens, starts, ends) && IsSeparator(c)
    ensures Cuts(s + [c], tokens, starts, ends)
  {
    var t := s + [c];
    forall k | 0 <= k < |tokens| ensures Stretch(t, starts[k], ends[k]) && tokens[k] == t[starts[k]..ends[k]] {
      assert t[starts[k]..ends[k]] == s[starts[k]..ends[k]];
    }
  }

  /** A character behind a separator starts a token. */
  lemma CutsNewToken(s: string, c: char, tokens: seq<string>, starts: seq<int>, ends: seq<int>)
    requires Cuts(s, tokens, starts, ends) && !IsSeparator(c) && (s == "" || IsSeparator(s[|s| - 1]))
    ensures Cuts(s + [c], tokens + [[c]], starts + [|s|], ends + [|s| + 1])
  {
    var t, tokens', starts', ends' := s + [c], tokens + [[c]], starts + [|s|], ends + [|s| + 1];
    forall k | 0 <= k < |tokens'| ensures Stretch(t, starts'[k], ends'[k]) && tokens'[k] == t[starts'[k]..ends'[k]] {
      if k < |tokens| {
        StretchStays(s, c, starts[k], ends[k]);
      }
    }
    forall k, l | 0 <= k < l < |tokens'| ensures ends'[k] < starts'[l] {
      StretchStays(s, c, starts[k], ends[k]);
    }
    forall p | 0 <= p < |t| && !IsSeparator(t[p]) ensures Covered(starts', ends', p) {
      if p < |s| {
        var k :| 0 <= k < |starts| && k < |ends| && starts[k] <= p < ends[k];
        assert starts'[k] <= p < ends'[k];
      } else {
        assert starts'[|tokens|] <= p < ends'[|tokens|];
      }
    }
  }

  /** A token in front of a separator stays as it is. */
  lemma StretchStays(s: string, c: char, i: int, j: int)
    requires Stretch(s, i, j) && (s == "" || IsSeparator(s[|s| - 1]))
    ensures Stretch(s + [c], i, j) && j < |s| && (s + [c])[i..j] == s[i..j]
  {
    assert !IsSeparator(s[j - 1]);
  }

  /** A character behind another one belongs to the same token. */
  lemma CutsSameToken(s: string, c: char, tokens: seq<string>, starts: seq<int>, ends: seq<int>)
    requires Cuts(s, tokens, starts, ends) && !IsSeparator(c) && tokens != [] && ends[|ends| - 1] == |s|
    ensures var k := |tokens| - 1; Cuts(s + [c], tokens[k := tokens[k] + [c]], starts, ends[k := |s| + 1])
  {
    var last := |tokens| - 1;
    var t, tokens', ends' := s + [c], tokens[last := tokens[last] + [c]], ends[last := |s| + 1];
    forall k | 0 <= k < |tokens| ensures Stretch(t, starts[k], ends'[k]) && tokens'[k] == t[starts[k]..ends'[k]] {
      if k < last {
        assert ends[k] < starts[last];
        assert t[starts[k]..ends[k]] == s[starts[k]..ends[k]];
      } else {
        assert t[starts[k]..|s| + 1] == s[starts[k]..|s|] + [c];
      }
    }
    forall p | 0 <= p < |t| && !IsSeparator(t[p]) ensures Covered(starts, ends', p) {
      if p < |s| {
        var k :| 0 <= k < |starts| && k < |ends| && starts[k] <= p < ends[k];
        assert starts[k] <= p < ends'[k];
      } else {
        assert starts[last] <= p < ends'[last];
      }
    }
  }

  /** What the next character does to the tokens. */
  lemma TokensNext(s: string, c: char)
    ensures IsSeparator(c) ==> Tokens(s + [c]) == Tokens(s)
    ensures !IsSeparator(c) && (s == "" || IsSeparator(s[|s| - 1])) ==> Tokens(s + [c]) == Tokens(s) + [[c]]
    ensures !IsSeparator(c) && s != "" && !IsSeparator(s[|s| - 1]) ==>
              var k := |Tokens(s)| - 1; k >= 0 && Tokens(s + [c]) == Tokens(s)[k := Tokens(s)[k] + [c]]
  {
    var t := s + [c];
    assert t[..|t| - 1] == s;
    var r := Pieces(s);
    var front, last := r[..|r| - 1], r[|r| - 1];
    assert r == front + [last];
    var open := LastPiece(s);
    if IsSeparator(c) {
      assert (r + [""])[..|r|] == r;
    } else {
      var r' := Pieces(t);
      assert r' == front + [last + [c]];
      assert r'[..|r'| - 1] == front;
      if s == "" || IsSeparator(s[|s| - 1]) {
        assert last == "" && last + [c] == [c];
      } else {
        assert last != "";
      }
    }
  }

  /** Tokens are exactly the stretches of the text, in order: a separator ends one, and two characters with
      no separator between them fall in the same one. */
  lemma {:induction false} TokensAreStretches(s: string) returns (starts: seq<int>, ends: seq<int>)
    ensures Cuts(s, Tokens(s), starts, ends)
  {
    if s == "" {
      starts, ends := [], [];
    } else {
      var s0, c := s[..|s| - 1], s[|s| - 1];
      assert s == s0 + [c];
      starts, ends := TokensAreStretches(s0);
      TokensNext(s0, c);
      if IsSeparator(c) {
        CutsAtSeparator(s0, c, Tokens(s0), starts, ends);
      } else if s0 == "" || IsSeparator(s0[|s0| - 1]) {
        CutsNewToken(s0, c, Tokens(s0), starts, ends);
        starts, ends := starts + [|s0|], ends + [|s0| + 1];
      } else {
        LastEndsHere(s0, Tokens(s0), starts, ends);
        CutsSameToken(s0, c, Tokens(s0), starts, ends);
        ends := ends[|ends| - 1 := |s0| + 1];
      }
    }
  }

  lemma LastEndsHere(s: string, tokens: seq<string>, starts: seq<int>, ends: seq<int>)
    requires Cuts(s, tokens, starts, ends) && s != "" && !IsSeparator(s[|s| - 1])
    ensures tokens != [] && ends[|ends| - 1] == |s|
  {
    assert Covered(starts, ends, |s| - 1);
    var k, last :| 0 <= k < |tokens| && starts[k] <= |s| - 1 < ends[k] && last == |tokens| - 1;
    assert Stretch(s, starts[last], ends[last]);
    assert k == last;
  }

  method RegexpSplit(input: string) returns (output: seq<string>)
    ensures output == Tokens(input)
  {
    var split := Pieces(input);
    output := [];
    for i := 0 to |split|
      invariant output == NonEmpty(split[..i])
    {
      assert split[..i + 1][..i] == split[..i];
      if split[i] == "" {
        continue;
      }
      output := output + [split[i]];
    }
    assert split[..|split|] == split;
  }

  // ----- Less

  /** The tokens decide, and this one comes first. */
  predicate TokenLess(x: string, y: string) {
    if x == y then false
    else if HasDigit(x) && HasDigit(y) then Atoi(x) < Atoi(y)
    else StringLess(x, y)
  }

  /** The tokens do not decide: the comparison goes on. */
  predicate TokenTies(x: string, y: string) {
    x == y || (HasDigit(x) && HasDigit(y) && Atoi(x) == Atoi(y))
  }

  predicate TokensLess(a: seq<string>, b: seq<string>) {
    if a == [] || b == [] then |a| < |b|
    else if TokenTies(a[0], b[0]) then TokensLess(a[1..], b[1..])
    else TokenLess(a[0], b[0])
  }

  method Less(v: seq<string>, i: nat, j: nat) returns (less: bool)
    requires i < |v| && j < |v|
    ensures less <==> TokensLess(Tokens(v[i]), Tokens(v[j]))
  {
    var ti := RegexpSplit(v[i]);
    var tj := RegexpSplit(v[j]);
    var k := 0;
    while k < |ti| && k < |tj|
      invariant k <= |ti| && k <= |tj|
      invariant TokensLess(ti, tj) <==> TokensLess(ti[k..], tj[k..])
    {
      assert ti[k..][1..] == ti[k + 1..] && tj[k..][1..] == tj[k + 1..];
      if ti[k] == tj[k] {
        k := k + 1;
        continue;
      }
      if HasDigit(ti[k]) && HasDigit(tj[k]) {
        var iv, jv := Atoi(ti[k]), Atoi(tj[k]);
        if iv == jv {
          k := k + 1;
          continue;
        }
        return iv < jv;
      }
      return StringLess(ti[k], tj[k]);
    }
    return |ti| < |tj|;
  }

  // ----- The order on well-formed tokens

  /** A token with a digit starts with one. All-digit and digit-free tokens are of this kind. */
  predicate Proper(t: string) { t != "" && (HasDigit(t) ==> IsDigit(t[0])) }

  /** Digit-free tokens that sort before digits, numbers by value, the other digit-free tokens. */
  datatype Key = Low(text: string) | Number(value: int) | High(text: string)

  function KeyOf(t: string): Key {
    if HasDigit(t) then Number(Atoi(t)) else if t != "" && t[0] < '0' then Low(t) else High(t)
  }

  predicate KeyLess(k: Key, l: Key) {
    match (k, l)
    case (Low(s), Low(t)) => StringLess(s, t)
    case (Low(_), _) => true
    case (Number(_), Low(_)) => false
    case (Number(m), Number(n)) => m < n
    case (Number(_), High(_)) => true
    case (High(s), High(t)) => StringLess(s, t)
    case (High(_), _) => false
  }

  lemma KeyLessFacts(k: Key, l: Key)
    ensures !KeyLess(k, k)
    ensures k != l ==> KeyLess(k, l) || KeyLess(l, k)
    ensures KeyLess(k, l) ==> !KeyLess(l, k)
  {
    if k.Low? || k.High? {
      StringLessFacts(k.text, if l.Number? then "" else l.text);
    }
  }

  lemma KeyLessTransitive(k: Key, l: Key, m: Key)
    requires KeyLess(k, l) && KeyLess(l, m)
    ensures KeyLess(k, m)
  {
    if k.Low? && l.Low? && m.Low? {
      StringLessTransitive(k.text, l.text, m.text);
    } else if k.High? && l.High? && m.High? {
      StringLessTransitive(k.text, l.text, m.text);
    }
  }

  /** On proper tokens the comparison is by key; a first character settles numbers against text. */
  lemma TokenLessIsKeyLess(x: string, y: string)
    requires Proper(x) && Proper(y)
    ensures TokenTies(x, y) <==> KeyOf(x) == KeyOf(y)
    ensures TokenLess(x, y) <==> KeyLess(KeyOf(x), KeyOf(y))
  {
    StringLessFacts(x, y);
    FirstIsNoDigit(x);
    FirstIsNoDigit(y);
  }

  lemma FirstIsNoDigit(t: string)
    requires t != ""
    ensures !HasDigit(t) ==> !IsDigit(t[0])
  {
  }

  /** Lexicographic comparison of keys, shorter first. */
  predicate KeysLess(a: seq<Key>, b: seq<Key>) {
    if a == [] || b == [] then |a| < |b|
    else if a[0] == b[0] then KeysLess(a[1..], b[1..])
    else KeyLess(a[0], b[0])
  }

  ghost predicate ProperTokens(ts: seq<string>) { forall t :: t in ts ==> Proper(t) }

  function KeysOf(ts: seq<string>): seq<Key> {
    if ts == [] then [] else [KeyOf(ts[0])] + KeysOf(ts[1..])
  }

  lemma {:induction false} TokensLessIsKeysLess(a: seq<string>, b: seq<string>)
    requires ProperTokens(a) && ProperTokens(b)
    ensures TokensLess(a, b) <==> KeysLess(KeysOf(a), KeysOf(b))
  {
    LengthOfKeys(a);
    LengthOfKeys(b);
    if a != [] && b != [] {
      assert a[0] in a && b[0] in b;
      TokenLessIsKeyLess(a[0], b[0]);
      TokensLessIsKeysLess(a[1..], b[1..]);
      assert KeysOf(a)[1..] == KeysOf(a[1..]) && KeysOf(b)[1..] == KeysOf(b[1..]);
    }
  }

  lemma {:induction false} LengthOfKeys(ts: seq<string>)
    ensures |KeysOf(ts)| == |ts|
  {
    if ts != [] {
      LengthOfKeys(ts[1..]);
    }
  }

  lemma {:induction false} KeysLessFacts(a: seq<Key>, b: seq<Key>)
    ensures !KeysLess(a, a)
    ensures a != b ==> KeysLess(a, b) || KeysLess(b, a)
    decreases |a|
  {
    if a != [] {
      if b != [] {
        KeyLessFacts(a[0], b[0]);
        KeysLessFacts(a[1..], b[1..]);
        assert a[0] == b[0] && a[1..] == b[1..] ==> a == [a[0]] + a[1..] && b == [b[0]] + b[1..];
      } else {
        KeysLessFacts(a[1..], []);
      }
    }
  }

  lemma {:induction false} KeysLessTransitive(a: seq<Key>, b: seq<Key>, c: seq<Key>)
    requires KeysLess(a, b) && KeysLess(b, c)
    ensures KeysLess(a, c)
  {
    if a != [] && b != [] && c != [] {
      if a[0] == b[0] && b[0] == c[0] {
        KeysLessTransitive(a[1..], b[1..], c[1..]);
      } else if a[0] != b[0] && b[0] != c[0] {
        KeyLessTransitive(a[0], b[0], c[0]);
        KeyLessFacts(a[0], c[0]);
      }
    }
  }

  ghost predicate Incomparable(a: string, b: string) {
    !TokensLess(Tokens(a), Tokens(b)) && !TokensLess(Tokens(b), Tokens(a))
  }

  /** On versions of proper tokens Less is a strict weak order, namely lexicographic comparison of the
      tokens with numbers by value and then by token count. */
  lemma LessIsStrictWeakOrder(a: string, b: string, c: string)
    requires ProperTokens(Tokens(a)) && ProperTokens(Tokens(b)) && ProperTokens(Tokens(c))
    ensures TokensLess(Tokens(a), Tokens(b)) <==> KeysLess(KeysOf(Tokens(a)), KeysOf(Tokens(b)))
    ensures !TokensLess(Tokens(a), Tokens(a))
    ensures TokensLess(Tokens(a), Tokens(b)) && TokensLess(Tokens(b), Tokens(c)) ==> TokensLess(Tokens(a), Tokens(c))
    ensures Incomparable(a, b) <==> KeysOf(Tokens(a)) == KeysOf(Tokens(b))
    ensures Incomparable(a, b) && Incomparable(b, c) ==> Incomparable(a, c)
  {
    var x, y, z := Tokens(a), Tokens(b), Tokens(c);
    TokensLessIsKeysLess(x, x);
    TokensLessIsKeysLess(x, y);
    TokensLessIsKeysLess(y, x);
    TokensLessIsKeysLess(y, z);
    TokensLessIsKeysLess(z, y);
    TokensLessIsKeysLess(x, z);
    TokensLessIsKeysLess(z, x);
    KeysLessFacts(KeysOf(x), KeysOf(y));
    KeysLessFacts(KeysOf(y), KeysOf(z));
    KeysLessFacts(KeysOf(x), KeysOf(z));
    if TokensLess(x, y) && TokensLess(y, z) {
      KeysLessTransitive(KeysOf(x), KeysOf(y), KeysOf(z));
    }
  }

  // ----- Tokens like "a1" break the order

  /** Transitivity and transitivity of ties for three one-token versions. */
  predicate OrderedTriple(x: string, y: string, z: string) {
    && (TokenLess(x, y) && TokenLess(y, z) ==> TokenLess(x, z))
    && (TokenLess(x, y) ==> !TokenLess(y, x))
    && (!TokenLess(x, y) && !TokenLess(y, x) && TokenLess(y, z) ==> TokenLess(x, z))
  }

  predicate AllTriplesOrdered(t: string, x: string, y: string) {
    && OrderedTriple(t, x, y) && OrderedTriple(t, y, x) && OrderedTriple(x, t, y)
    && OrderedTriple(x, y, t) && OrderedTriple(y, t, x) && OrderedTriple(y, x, t)
  }

  predicate IsNumber(x: string) { x != "" && AllDigits(x) }

  predicate IsWord(y: string) { y != "" && !HasDigit(y) }

  lemma ProperTriple(x: string, y: string, z: string)
    requires Proper(x) && Proper(y) && Proper(z)
    ensures OrderedTriple(x, y, z)
  {
    TokenLessIsKeyLess(x, y);
    TokenLessIsKeyLess(y, x);
    TokenLessIsKeyLess(y, z);
    TokenLessIsKeyLess(x, z);
    var k, l, m := KeyOf(x), KeyOf(y), KeyOf(z);
    KeyLessFacts(k, l);
    if KeyLess(k, l) && KeyLess(l, m) {
      KeyLessTransitive(k, l, m);
    }
  }

  lemma NumbersAndWordsAreProper(x: string, y: string)
    requires IsNumber(x) && IsWord(y)
    ensures Proper(x) && Proper(y)
  {
  }

  /** Proper is the widest class: a token sorts consistently with all numbers and words exactly when
      it is proper. */
  lemma ConsistentIffProper(t: string)
    requires t != ""
    ensures Proper(t) <==> forall x, y :: IsNumber(x) && IsWord(y) ==> AllTriplesOrdered(t, x, y)
  {
    if Proper(t) {
      forall x, y | IsNumber(x) && IsWord(y) ensures AllTriplesOrdered(t, x, y) {
        NumbersAndWordsAreProper(x, y);
        ProperTriple(t, x, y);
        ProperTriple(t, y, x);
        ProperTriple(x, t, y);
        ProperTriple(x, y, t);
        ProperTriple(y, t, x);
        ProperTriple(y, x, t);
      }
    } else {
      var x, y := ImproperTokenBreaksOrder(t);
      assert IsNumber(x) && IsWord(y) && !AllTriplesOrdered(t, x, y);
    }
  }

  /** Next to any other token there are a number and a word with which the order fails. */
  lemma ImproperTokenBreaksOrder(t: string) returns (x: string, y: string)
    requires t != "" && !Proper(t)
    ensures x != "" && AllDigits(x) && y != "" && !HasDigit(y)
    ensures !OrderedTriple(t, x, y) || !OrderedTriple(x, t, y) || !OrderedTriple(y, t, x) || !OrderedTriple(t, y, x)
  {
    if t[0] > '9' {
      // y < t < x by value, but x < y by its first character
      x, y := "1", [t[0]];
      assert x[0] == '1' && HasDigit(x);
      assert Value("1") == 1 by { assert "1"[..0] == ""; }
      assert StringLess(y, t) by { assert y[1..] == "" && |t| > 1; }
      assert Atoi(t) == 0 && Atoi(x) == 1;
    } else {
      // t ties with the number x, and t < y < x
      x := if |t| > 1 && t[0] == '+' && AllDigits(t[1..]) then t[1..] else "0";
      assert Value("0") == 0 by { assert "0"[..0] == ""; }
      y := JustBehind(t);
      assert HasDigit(x) by { assert IsDigit(x[0]); }
      assert Atoi(x) == Atoi(t);
    }
  }

  /** The digit-free prefix of t followed by the character after '9' sorts right behind t. */
  lemma {:induction false} JustBehind(t: string) returns (y: string)
    requires HasDigit(t) && !IsDigit(t[0])
    ensures y != "" && !HasDigit(y) && StringLess(t, y) && y[0] == t[0]
  {
    if IsDigit(t[1]) {
      y := [t[0], ':'];
      assert y[1..] == ":" && t[1..][0] == t[1];
    } else {
      assert HasDigit(t[1..]) by {
        var i :| 0 <= i < |t| && IsDigit(t[i]);
        assert t[1..][i - 1] == t[i];
      }
      var rest := JustBehind(t[1..]);
      y := [t[0]] + rest;
      assert y[1..] == rest;
      forall i | 0 <= i < |y| ensures !IsDigit(y[i]) {
        if i > 0 {
          assert y[i] == rest[i - 1];
        }
      }
    }
  }
}
