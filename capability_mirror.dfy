/** Capability mirroring: before translating, the program gives the synthetic device
    every event category and code the grabbed keyboard reports, then the mouse
    capabilities it needs itself, then its identity, and creates it. Each request to
    either device may fail; the first failure ends the program before the device
    exists. */
module CapabilityMirror {
  import opened InputCodes

  /** One `unsigned long` of a capability bitmask, read as the number it holds. */
  type Word = x: int | 0 <= x < 0x1_0000_0000_0000_0000

  /** `(w >> i) & 1` on an unsigned word: the remainder by 2 after `i` halvings. */
  predicate Bit(w: int, i: nat)
    decreases i
  {
    if i == 0 then w % 2 == 1 else Bit(w / 2, i - 1)
  }

  /** The bit test of both mirroring loops, `(words[n / 64] >> (n % 64)) & 1`, with
      64-bit `unsigned long` words. Bits past
      the words the keyboard filled in read as clear, as the zeroed buffers do. */
  predicate BitSet(words: seq<Word>, n: nat)
  {
    n / 64 < |words| && Bit(words[n / 64], n % 64)
  }

  /** 2 to the power `k`: what a shift right by `k` divides by. */
  function Pow2(k: nat): (p: nat)
    ensures p > 0
  {
    if k == 0 then 1 else 2 * Pow2(k - 1)
  }

  /** Multiplying by a positive number keeps the sign and at least the size. */
  lemma MulBounds(p: int, k: int)
    requires p > 0
    ensures k >= 1 ==> p * k >= p
    ensures k <= -1 ==> p * k <= -p
  {
  }

  /** The quotient is determined by any quotient-remainder split. */
  lemma DivUnique(a: int, p: int, q: int, r: int)
    requires p > 0 && 0 <= r < p && a == p * q + r
    ensures a / p == q
  {
    var d := a / p - q;
    assert p * d == a % p - r;
    MulBounds(p, d);
  }

  /** Halving and then dividing is dividing by the product. */
  lemma DivHalf(w: nat, p: nat)
    requires p > 0
    ensures (w / 2) / p == w / (2 * p)
  {
    var q, r := w / (2 * p), w % (2 * p);
    assert w == 2 * (p * q) + r;
    assert w / 2 == p * q + r / 2;
    DivUnique(w / 2, p, q, r / 2);
  }

  /** `Bit` is `(w >> i) & 1` on an unsigned word: the quotient by 2 to the `i`, taken mod 2. */
  lemma {:induction false} BitIsShiftAnd(w: nat, i: nat)
    ensures Bit(w, i) <==> (w / Pow2(i)) % 2 == 1
    decreases i
  {
    if i > 0 {
      BitIsShiftAnd(w / 2, i - 1);
      DivHalf(w, Pow2(i - 1));
    }
  }

  /** The bit test of both mirroring loops, as the shift-and expression the program writes. */
  lemma BitSetIsShiftAnd(words: seq<Word>, n: nat)
    ensures BitSet(words, n) <==> n / 64 < |words| && (words[n / 64] / Pow2(n % 64)) % 2 == 1
  {
    if n / 64 < |words| {
      BitIsShiftAnd(words[n / 64], n % 64);
    }
  }

  /** The per-code request the program pairs with an event category. */
  datatype CodeWriter = KeyBits | RelBits | AbsBits | MscBits | LedBits | SndBits | FfBits | SwBits

  /** The category each code request belongs to. */
  function CategoryOf(w: CodeWriter): int
  {
    match w
    case KeyBits => EV_KEY
    case RelBits => EV_REL
    case AbsBits => EV_ABS
    case MscBits => EV_MSC
    case LedBits => EV_LED
    case SndBits => EV_SND
    case FfBits => EV_FF
    case SwBits => EV_SW
  }

  /** The `code_writer` switch: eight categories carry codes of their own, the others
      are only registered as categories. */
  function CodeWriterFor(ev: int): (r: Option<CodeWriter>)
    ensures r.Some? <==> ev in {EV_KEY, EV_REL, EV_ABS, EV_MSC, EV_LED, EV_SND, EV_FF, EV_SW}
    ensures r.Some? ==> CategoryOf(r.value) == ev
  {
    if ev == EV_KEY then Some(KeyBits)
    else if ev == EV_REL then Some(RelBits)
    else if ev == EV_ABS then Some(AbsBits)
    else if ev == EV_MSC then Some(MscBits)
    else if ev == EV_LED then Some(LedBits)
    else if ev == EV_SND then Some(SndBits)
    else if ev == EV_FF then Some(FfBits)
    else if ev == EV_SW then Some(SwBits)
    else None
  }

  /** Each code request is the one chosen for its own category. */
  lemma CodeWriterRoundTrip(w: CodeWriter)
    ensures CodeWriterFor(CategoryOf(w)) == Some(w)
  {
  }

  /** `struct uinput_setup`: bus, vendor, product and name. */
  datatype DeviceSetup = DeviceSetup(busType: int, vendor: int, product: int, name: string)

  const SETUP: DeviceSetup := DeviceSetup(BUS_USB, 0xcccc, 0xcccc, "Keyboard Mouse")

  /** The requests the program makes, in the order it makes them:
      `EVIOCGBIT` on the keyboard (category 0 asks for the category mask),
      `UI_SET_EVBIT` and the `UI_SET_*BIT` code requests on the synthetic device,
      `UI_DEV_SETUP` and `UI_DEV_CREATE`. */
  datatype Call =
    | QueryBits(category: int)
    | SetEvBit(category: int)
    | SetCodeBit(writer: CodeWriter, code: int)
    | Setup(id: DeviceSetup)
    | Create

  /** What `EVIOCGBIT` answers for a category: the mask words, or `None` when it fails. */
  type Query = int -> Option<seq<Word>>

  /** Whether a request fails: a query by its answer, anything else by the device. */
  predicate Fails(query: Query, accepts: Call -> bool, c: Call)
  {
    if c.QueryBits? then query(c.category).None? else !accepts(c)
  }

  /** No request of `cs` fails. */
  predicate NoneFails(query: Query, accepts: Call -> bool, cs: seq<Call>)
    decreases |cs|
  {
    cs == [] || (!Fails(query, accepts, cs[0]) && NoneFails(query, accepts, cs[1..]))
  }

  // ---------------------------------------------------------------------------
  // The requests made when nothing fails

  /** The category a request is about; setup and creation come after every category. */
  function CategoryOfCall(c: Call): int
  {
    match c
    case QueryBits(ev) => ev
    case SetEvBit(ev) => ev
    case SetCodeBit(w, _) => CategoryOf(w)
    case _ => EV_MAX + 1
  }

  /** Within a category: the category itself, then its query, then its codes by number. */
  function OrderInCategory(c: Call): int
  {
    match c
    case SetEvBit(_) => -2
    case QueryBits(_) => -1
    case SetCodeBit(_, code) => code
    case _ => 0
  }

  /** Request `c` is issued strictly before request `d`. */
  predicate Before(c: Call, d: Call)
  {
    CategoryOfCall(c) < CategoryOfCall(d) ||
    (CategoryOfCall(c) == CategoryOfCall(d) && OrderInCategory(c) < OrderInCategory(d))
  }

  lemma BeforeTransitive(c: Call, d: Call, e: Call)
    requires Before(c, d) && Before(d, e)
    ensures Before(c, e)
  {
  }

  /** Each request is issued before the next one. */
  predicate Ascending(cs: seq<Call>)
    decreases |cs|
  {
    |cs| <= 1 || (Before(cs[0], cs[1]) && Ascending(cs[1..]))
  }

  /** In an ascending run, every request is issued before every later one. */
  lemma {:induction false} AscendingPairwise(cs: seq<Call>)
    requires Ascending(cs)
    ensures forall i, j :: 0 <= i < j < |cs| ==> Before(cs[i], cs[j])
    decreases |cs|
  {
    if |cs| > 1 {
      var tail := cs[1..];
      AscendingPairwise(tail);
      forall i, j | 0 <= i < j < |cs|
        ensures Before(cs[i], cs[j])
      {
        if i == 0 && j > 1 {
          assert cs[1] == tail[0] && cs[j] == tail[j - 1];
          BeforeTransitive(cs[0], cs[1], cs[j]);
        } else if i > 0 {
          assert cs[i] == tail[i - 1] && cs[j] == tail[j - 1];
        }
      }
    }
  }

  /** Two ascending runs joined where the first ends before the second starts. */
  lemma {:induction false} AscendingConcat(a: seq<Call>, b: seq<Call>)
    requires Ascending(a) && Ascending(b)
    requires a != [] && b != [] ==> Before(a[|a| - 1], b[0])
    ensures Ascending(a + b)
    decreases |a|
  {
    if |a| > 1 {
      AscendingConcat(a[1..], b);
      assert (a + b)[1..] == a[1..] + b;
    } else if |a| == 1 {
      assert (a + b)[1..] == b;
    } else {
      assert a + b == b;
    }
  }

  /** Regrouping a concatenation, stated once so that proofs need not rediscover it. */
  lemma Assoc(a: seq<Call>, b: seq<Call>, c: seq<Call>)
    ensures a + b + c == a + (b + c)
  {
  }

  lemma AppendNil(a: seq<Call>)
    ensures a + [] == a
  {
  }

  /** The requests of a counting loop from `lo` up to `hi`, excluding `hi`, whose
      iteration `i` makes the requests `step(i)`. */
  function Gather(step: int -> seq<Call>, lo: int, hi: int): seq<Call>
    decreases hi - lo
  {
    if hi <= lo then [] else Gather(step, lo, hi - 1) + step(hi - 1)
  }

  /** Running a loop to `mid` and then on to `hi` makes the requests of the whole run. */
  lemma {:induction false} GatherSplit(step: int -> seq<Call>, lo: int, mid: int, hi: int)
    requires lo <= mid <= hi
    ensures Gather(step, lo, hi) == Gather(step, lo, mid) + Gather(step, mid, hi)
    decreases hi - mid
  {
    if mid < hi {
      GatherSplit(step, lo, mid, hi - 1);
      Assoc(Gather(step, lo, mid), Gather(step, mid, hi - 1), step(hi - 1));
    } else {
      AppendNil(Gather(step, lo, hi));
    }
  }

  /** One iteration of the inner loop: a request for code `code` if it is set. */
  function CodeStep(w: CodeWriter, bits: seq<Word>): int -> seq<Call>
  {
    code => if 0 <= code && BitSet(bits, code) then [SetCodeBit(w, code)] else []
  }

  /** The inner loop up to code `n`: one request for each set code below `n`. */
  function CodeCalls(w: CodeWriter, bits: seq<Word>, n: nat): seq<Call>
  {
    Gather(CodeStep(w, bits), 0, n)
  }

  /** All of a category's code requests: none when the query for its codes fails. */
  function AnsweredCodes(query: Query, w: CodeWriter): seq<Call>
  {
    match query(CategoryOf(w))
    case None => []
    case Some(bits) => CodeCalls(w, bits, KEY_MAX + 1)
  }

  /** One iteration of the outer loop: category `ev` if it is set, its query and its codes. */
  function CategoryBody(query: Query, evBits: seq<Word>, ev: int): seq<Call>
  {
    if ev < 0 || !BitSet(evBits, ev) then []
    else
      [SetEvBit(ev)] +
      match CodeWriterFor(ev)
      case None => []
      case Some(w) => [QueryBits(ev)] + AnsweredCodes(query, w)
  }

  function CategoryStep(query: Query, evBits: seq<Word>): int -> seq<Call>
  {
    ev => CategoryBody(query, evBits, ev)
  }

  /** The outer loop over categories 1 up to `n`, excluding `n`. */
  function CategoryCalls(query: Query, evBits: seq<Word>, n: nat): seq<Call>
  {
    Gather(CategoryStep(query, evBits), 1, n)
  }

  /** The inner loop registers exactly the set codes below `n`. */
  lemma {:induction false} CodeCallsExact(w: CodeWriter, bits: seq<Word>, n: nat)
    ensures forall c :: c in CodeCalls(w, bits, n) <==>
      c.SetCodeBit? && c.writer == w && 0 <= c.code < n && BitSet(bits, c.code)
  {
    if n > 0 {
      CodeCallsExact(w, bits, n - 1);
    }
  }

  /** ... and in ascending order. */
  lemma {:induction false} CodeCallsAscending(w: CodeWriter, bits: seq<Word>, n: nat)
    ensures Ascending(CodeCalls(w, bits, n))
  {
    if n > 0 {
      var done := CodeCalls(w, bits, n - 1);
      CodeCallsAscending(w, bits, n - 1);
      if BitSet(bits, n - 1) {
        if done != [] {
          CodeCallsExact(w, bits, n - 1);
          assert done[|done| - 1] in done;
        }
        AscendingConcat(done, [SetCodeBit(w, n - 1)]);
      } else {
        assert CodeCalls(w, bits, n) == done + [] == done;
      }
    }
  }

  /** A category's code requests are its own, by number, in ascending order. */
  lemma AnsweredCodesOrdered(query: Query, w: CodeWriter)
    ensures forall c :: c in AnsweredCodes(query, w) ==> c.SetCodeBit? && c.writer == w && 0 <= c.code
    ensures Ascending(AnsweredCodes(query, w))
  {
    var answer := query(CategoryOf(w));
    if answer.Some? {
      CodeCallsExact(w, answer.value, KEY_MAX + 1);
      CodeCallsAscending(w, answer.value, KEY_MAX + 1);
    }
  }

  /** One outer iteration's requests all concern its category, in order. */
  lemma CategoryBodyOrdered(query: Query, evBits: seq<Word>, ev: nat)
    ensures forall c :: c in CategoryBody(query, evBits, ev) ==> CategoryOfCall(c) == ev
    ensures Ascending(CategoryBody(query, evBits, ev))
  {
    var writer := CodeWriterFor(ev);
    if BitSet(evBits, ev) && writer.Some? {
      var w := writer.value;
      var codes := AnsweredCodes(query, w);
      AnsweredCodesOrdered(query, w);
      if codes != [] {
        assert codes[0] in codes;
      }
      AscendingConcat([QueryBits(ev)], codes);
      var tail := [QueryBits(ev)] + codes;
      assert tail[0] == QueryBits(ev);
      AscendingConcat([SetEvBit(ev)], tail);
      assert CategoryBody(query, evBits, ev) == [SetEvBit(ev)] + tail;
    }
  }

  /** The outer loop below `n`: a request belongs to it exactly when it belongs to the
      iteration of its own category, and the requests are in ascending order. */
  lemma {:induction false} CategoryCallsOrdered(query: Query, evBits: seq<Word>, n: nat)
    ensures forall c :: c in CategoryCalls(query, evBits, n) <==>
      1 <= CategoryOfCall(c) < n && c in CategoryBody(query, evBits, CategoryOfCall(c))
    ensures Ascending(CategoryCalls(query, evBits, n))
  {
    if n > 1 {
      var done := CategoryCalls(query, evBits, n - 1);
      var body := CategoryBody(query, evBits, n - 1);
      CategoryBodyOrdered(query, evBits, n - 1);
      CategoryCallsOrdered(query, evBits, n - 1);
      if done != [] && body != [] {
        assert done[|done| - 1] in done && body[0] in body;
      }
      AscendingConcat(done, body);
    }
  }

  /** The mouse capabilities registered whatever the keyboard reports. */
  const EXTRAS: seq<Call> := [
    SetEvBit(EV_KEY),
    SetCodeBit(KeyBits, BTN_LEFT),
    SetCodeBit(KeyBits, BTN_MIDDLE),
    SetCodeBit(KeyBits, BTN_RIGHT),
    SetEvBit(EV_REL),
    SetCodeBit(RelBits, REL_X),
    SetCodeBit(RelBits, REL_Y)]

  /** The identity and the creation of the device. */
  const FINISH: seq<Call> := [Setup(SETUP), Create]

  /** Every request in order, as far as the answers of the queries determine it. */
  function Plan(query: Query): (plan: seq<Call>)
    ensures |plan| >= 1 && plan[0] == QueryBits(0)
    ensures query(0).None? <==> plan == [QueryBits(0)]
  {
    [QueryBits(0)] +
    match query(0)
    case None => []
    case Some(evBits) => CategoryCalls(query, evBits, EV_MAX + 1) + (EXTRAS + FINISH)
  }

  // ---------------------------------------------------------------------------
  // Stopping at the first failure

  /** The requests actually made: the plan up to and including the first that fails. */
  function Attempted(query: Query, accepts: Call -> bool, plan: seq<Call>): (made: seq<Call>)
    ensures |made| <= |plan| && made == plan[..|made|]
    ensures plan != [] ==> made != []
    ensures |made| < |plan| ==> Fails(query, accepts, made[|made| - 1])
    decreases |plan|
  {
    if plan == [] then []
    else if Fails(query, accepts, plan[0]) then [plan[0]]
    else
      var rest := Attempted(query, accepts, plan[1..]);
      assert plan[..|rest| + 1] == [plan[0]] + plan[1..][..|rest|];
      [plan[0]] + rest
  }

  /** No request fails exactly when each request of the run, wherever it is, succeeds. */
  lemma {:induction false} NoneFailsMeans(query: Query, accepts: Call -> bool, cs: seq<Call>)
    ensures NoneFails(query, accepts, cs) <==> forall c :: c in cs ==> !Fails(query, accepts, c)
    decreases |cs|
  {
    if cs != [] {
      NoneFailsMeans(query, accepts, cs[1..]);
      assert cs == [cs[0]] + cs[1..];
      assert forall c :: c in cs <==> c == cs[0] || c in cs[1..];
    }
  }

  /** Requests made in two runs succeed when those of each run do. */
  lemma {:induction false} NoneFailsConcat(query: Query, accepts: Call -> bool, a: seq<Call>, b: seq<Call>)
    ensures NoneFails(query, accepts, a + b) <==> NoneFails(query, accepts, a) && NoneFails(query, accepts, b)
    decreases |a|
  {
    if a == [] {
      assert a + b == b;
    } else {
      NoneFailsConcat(query, accepts, a[1..], b);
      assert (a + b)[0] == a[0] && (a + b)[1..] == a[1..] + b;
    }
  }

  /** Requests that all succeed are made in full, and what follows them is attempted as
      if they had not been there. */
  lemma {:induction false} AttemptedAfter(query: Query, accepts: Call -> bool, done: seq<Call>, rest: seq<Call>)
    requires NoneFails(query, accepts, done)
    ensures Attempted(query, accepts, done + rest) == done + Attempted(query, accepts, rest)
    decreases |done|
  {
    if done == [] {
      assert done + rest == rest;
    } else {
      var tail := done[1..];
      assert (done + rest)[0] == done[0] && (done + rest)[1..] == tail + rest;
      AttemptedAfter(query, accepts, tail, rest);
      assert done == [done[0]] + tail;
    }
  }

  /** Once a request in `part` fails, nothing after `part` is attempted. */
  lemma {:induction false} AttemptedBefore(query: Query, accepts: Call -> bool, part: seq<Call>, rest: seq<Call>)
    requires !NoneFails(query, accepts, part)
    ensures Attempted(query, accepts, part + rest) == Attempted(query, accepts, part)
    decreases |part|
  {
    assert (part + rest)[0] == part[0] && (part + rest)[1..] == part[1..] + rest;
    if !Fails(query, accepts, part[0]) {
      AttemptedBefore(query, accepts, part[1..], rest);
    }
  }

  /** When no request fails, every request of the plan is made. */
  lemma AttemptedAll(query: Query, accepts: Call -> bool, plan: seq<Call>)
    requires NoneFails(query, accepts, plan)
    ensures Attempted(query, accepts, plan) == plan
  {
    AttemptedAfter(query, accepts, plan, []);
    assert plan + [] == plan;
  }

  /** Otherwise the requests made are the plan up to and including its first failing
      request, and nothing after it. */
  lemma AttemptedStopsAtFirstFailure(query: Query, accepts: Call -> bool, plan: seq<Call>, i: nat)
    requires i < |plan| && Fails(query, accepts, plan[i]) && NoneFails(query, accepts, plan[..i])
    ensures Attempted(query, accepts, plan) == plan[..i + 1]
  {
    assert plan == plan[..i] + plan[i..];
    AttemptedAfter(query, accepts, plan[..i], plan[i..]);
    assert plan[..i + 1] == plan[..i] + [plan[i]];
  }

  /** A run that fails after requests that all succeeded: the program makes those
      requests, then the run's up to its failure, and nothing after. */
  lemma FailsWithin(query: Query, accepts: Call -> bool, done: seq<Call>, part: seq<Call>, rest: seq<Call>)
    requires NoneFails(query, accepts, done) && !NoneFails(query, accepts, part)
    ensures Attempted(query, accepts, done + (part + rest)) == done + Attempted(query, accepts, part)
    ensures !NoneFails(query, accepts, done + (part + rest))
  {
    AttemptedAfter(query, accepts, done, part + rest);
    AttemptedBefore(query, accepts, part, rest);
    NoneFailsConcat(query, accepts, done, part + rest);
    NoneFailsConcat(query, accepts, part, rest);
  }

  /** A single request that fails. */
  lemma FailsAlone(query: Query, accepts: Call -> bool, c: Call)
    requires Fails(query, accepts, c)
    ensures !NoneFails(query, accepts, [c]) && Attempted(query, accepts, [c]) == [c]
  {
  }

  /** A single request that succeeds. */
  lemma PassesAlone(query: Query, accepts: Call -> bool, c: Call)
    requires !Fails(query, accepts, c)
    ensures NoneFails(query, accepts, [c]) && Attempted(query, accepts, [c]) == [c]
  {
    assert [c][1..] == [];
  }

  // ---------------------------------------------------------------------------
  // The loops, one step at a time

  /** The requests of the outer loop up to category `ev`, all successful. */
  ghost predicate MirroredUpTo(query: Query, accepts: Call -> bool, evBits: seq<Word>, done: seq<Call>, ev: nat)
  {
    query(0) == Some(evBits) && done == [QueryBits(0)] + CategoryCalls(query, evBits, ev) &&
    NoneFails(query, accepts, done)
  }

  lemma Regroup(a: seq<Call>, b: seq<Call>, c: seq<Call>, d: seq<Call>, e: seq<Call>)
    ensures a + ((b + c + d) + e) == (a + b) + (c + (d + e))
  {
  }

  /** A failing outer iteration ends the mirroring there. */
  lemma CategoryFails(query: Query, accepts: Call -> bool, evBits: seq<Word>, done: seq<Call>, ev: nat)
    requires 1 <= ev <= EV_MAX && MirroredUpTo(query, accepts, evBits, done, ev)
    requires !NoneFails(query, accepts, CategoryBody(query, evBits, ev))
    ensures var body := CategoryBody(query, evBits, ev);
      Attempted(query, accepts, Plan(query)) == done + Attempted(query, accepts, body) &&
      !NoneFails(query, accepts, Plan(query))
  {
    var body := CategoryBody(query, evBits, ev);
    var later := Gather(CategoryStep(query, evBits), ev + 1, EV_MAX + 1);
    var rest := later + (EXTRAS + FINISH);
    assert CategoryCalls(query, evBits, EV_MAX + 1) == CategoryCalls(query, evBits, ev) + body + later by {
      GatherSplit(CategoryStep(query, evBits), 1, ev + 1, EV_MAX + 1);
      assert CategoryCalls(query, evBits, ev + 1) == CategoryCalls(query, evBits, ev) + body;
    }
    assert Plan(query) == done + (body + rest) by {
      assert Plan(query) == [QueryBits(0)] + (CategoryCalls(query, evBits, EV_MAX + 1) + (EXTRAS + FINISH));
      Regroup([QueryBits(0)], CategoryCalls(query, evBits, ev), body, later, EXTRAS + FINISH);
    }
    FailsWithin(query, accepts, done, body, rest);
  }

  /** A successful outer iteration extends the successful prefix by one category. */
  lemma CategoryPasses(query: Query, accepts: Call -> bool, evBits: seq<Word>, done: seq<Call>, ev: nat)
    requires 1 <= ev && MirroredUpTo(query, accepts, evBits, done, ev)
    requires NoneFails(query, accepts, CategoryBody(query, evBits, ev))
    ensures MirroredUpTo(query, accepts, evBits, done + CategoryBody(query, evBits, ev), ev + 1)
  {
    var body := CategoryBody(query, evBits, ev);
    CategoryCallsNext(query, evBits, ev);
    Assoc([QueryBits(0)], CategoryCalls(query, evBits, ev), body);
    NoneFailsConcat(query, accepts, done, body);
  }

  /** One more iteration of the outer loop adds the requests of one more category. */
  lemma CategoryCallsNext(query: Query, evBits: seq<Word>, ev: nat)
    requires 1 <= ev
    ensures CategoryCalls(query, evBits, ev + 1) == CategoryCalls(query, evBits, ev) + CategoryBody(query, evBits, ev)
  {
  }


  /** After every category, the mouse capabilities and the creation decide the rest. */
  lemma ExtrasAfterCategories(query: Query, accepts: Call -> bool, evBits: seq<Word>, done: seq<Call>)
    requires MirroredUpTo(query, accepts, evBits, done, EV_MAX + 1)
    ensures Attempted(query, accepts, Plan(query)) == done + Attempted(query, accepts, EXTRAS + FINISH)
    ensures NoneFails(query, accepts, Plan(query)) <==> NoneFails(query, accepts, EXTRAS + FINISH)
  {
    assert Plan(query) == done + (EXTRAS + FINISH);
    AttemptedAfter(query, accepts, done, EXTRAS + FINISH);
    NoneFailsConcat(query, accepts, done, EXTRAS + FINISH);
  }

  /** The inner loop's requests around a set code. */
  lemma CodeCallsAround(w: CodeWriter, bits: seq<Word>, code: nat, m: nat)
    requires code < m && BitSet(bits, code)
    ensures CodeCalls(w, bits, m) ==
      CodeCalls(w, bits, code) + ([SetCodeBit(w, code)] + Gather(CodeStep(w, bits), code + 1, m))
  {
    var step := CodeStep(w, bits);
    var c := SetCodeBit(w, code);
    assert step(code) == [c];
    assert Gather(step, 0, code + 1) == Gather(step, 0, code) + [c];
    GatherSplit(step, 0, code + 1, m);
    Assoc(Gather(step, 0, code), [c], Gather(step, code + 1, m));
  }

  /** A code request that fails ends the inner loop there. */
  lemma CodeFails(query: Query, accepts: Call -> bool, w: CodeWriter, bits: seq<Word>, code: nat, m: nat)
    requires code < m && BitSet(bits, code) && !accepts(SetCodeBit(w, code))
    requires NoneFails(query, accepts, CodeCalls(w, bits, code))
    ensures Attempted(query, accepts, CodeCalls(w, bits, m)) == CodeCalls(w, bits, code) + [SetCodeBit(w, code)]
    ensures !NoneFails(query, accepts, CodeCalls(w, bits, m))
  {
    var c := SetCodeBit(w, code);
    CodeCallsAround(w, bits, code, m);
    FailsAlone(query, accepts, c);
    FailsWithin(query, accepts, CodeCalls(w, bits, code), [c], Gather(CodeStep(w, bits), code + 1, m));
  }

  // ---------------------------------------------------------------------------
  // What the mirroring promises

  /** Category `ev` is registered exactly when it is one of 1..`EV_MAX` the keyboard
      reports, or one of the two the mouse needs; category 0 never is. */
  lemma CategoryRegistered(query: Query, evBits: seq<Word>, ev: int)
    requires query(0) == Some(evBits)
    ensures SetEvBit(ev) in Plan(query) <==>
      (1 <= ev <= EV_MAX && BitSet(evBits, ev)) || ev == EV_KEY || ev == EV_REL
  {
    var categories := CategoryCalls(query, evBits, EV_MAX + 1);
    CategoryCallsOrdered(query, evBits, EV_MAX + 1);
    assert Plan(query) == [QueryBits(0)] + (categories + (EXTRAS + FINISH));
    if 1 <= ev <= EV_MAX && BitSet(evBits, ev) {
      assert CategoryBody(query, evBits, ev)[0] == SetEvBit(ev);
    }
  }

  /** Code `code` is registered with request `w` exactly when the keyboard reports both
      the category of `w` and that code (within 0..`KEY_MAX`), or when it is one of the
      mouse buttons or axes. */
  lemma CodeRegistered(query: Query, evBits: seq<Word>, w: CodeWriter, code: int)
    requires query(0) == Some(evBits)
    ensures SetCodeBit(w, code) in Plan(query) <==>
      (BitSet(evBits, CategoryOf(w)) && query(CategoryOf(w)).Some? &&
       0 <= code <= KEY_MAX && BitSet(query(CategoryOf(w)).value, code)) ||
      (w == KeyBits && code in {BTN_LEFT, BTN_MIDDLE, BTN_RIGHT}) ||
      (w == RelBits && code in {REL_X, REL_Y})
  {
    var ev := CategoryOf(w);
    var categories := CategoryCalls(query, evBits, EV_MAX + 1);
    CategoryCallsOrdered(query, evBits, EV_MAX + 1);
    CodeWriterRoundTrip(w);
    assert Plan(query) == [QueryBits(0)] + (categories + (EXTRAS + FINISH));
    var c := SetCodeBit(w, code);
    if BitSet(evBits, ev) {
      assert CategoryBody(query, evBits, ev) == [SetEvBit(ev)] + ([QueryBits(ev)] + AnsweredCodes(query, w));
      var answer := query(ev);
      if answer.Some? {
        CodeCallsExact(w, answer.value, KEY_MAX + 1);
      }
    }
  }

  /** The categories, their queries and their codes are requested in ascending order:
      by category, and within one, the category, then its query, then its codes. */
  lemma MirrorOrder(query: Query, evBits: seq<Word>)
    ensures var categories := CategoryCalls(query, evBits, EV_MAX + 1);
      forall i, j :: 0 <= i < j < |categories| ==> Before(categories[i], categories[j])
  {
    CategoryCallsOrdered(query, evBits, EV_MAX + 1);
    AscendingPairwise(CategoryCalls(query, evBits, EV_MAX + 1));
  }

  /** Whatever the keyboard reports, once its categories are known the plan ends with
      the mouse capabilities, the identity and the creation of the device. */
  lemma ExtrasUnconditional(query: Query)
    requires query(0).Some?
    ensures var plan := Plan(query);
      |plan| >= |EXTRAS + FINISH| && plan[|plan| - |EXTRAS + FINISH|..] == EXTRAS + FINISH
  {
    var plan := Plan(query);
    var front := [QueryBits(0)] + CategoryCalls(query, query(0).value, EV_MAX + 1);
    Assoc([QueryBits(0)], CategoryCalls(query, query(0).value, EV_MAX + 1), EXTRAS + FINISH);
    assert plan == front + (EXTRAS + FINISH);
  }

  /** The requests made are a prefix of the plan that ends no later than its first
      failing request. */
  lemma {:induction false} AttemptedWithin(query: Query, accepts: Call -> bool, plan: seq<Call>, i: nat)
    requires i < |plan| && Fails(query, accepts, plan[i])
    ensures |Attempted(query, accepts, plan)| <= i + 1
    ensures Attempted(query, accepts, plan) == plan[..|Attempted(query, accepts, plan)|]
    decreases i
  {
    if !Fails(query, accepts, plan[0]) {
      AttemptedWithin(query, accepts, plan[1..], i - 1);
      var r := Attempted(query, accepts, plan[1..]);
      assert plan[..|r| + 1] == [plan[0]] + plan[1..][..|r|];
    } else {
      assert plan[..1] == [plan[0]];
    }
  }

  /** A request that fails before the identity is given ends the program before the
      device is set up or created. */
  lemma NoDeviceAfterFailure(query: Query, accepts: Call -> bool, i: nat)
    requires i < |Plan(query)| - |FINISH| && Fails(query, accepts, Plan(query)[i])
    ensures Setup(SETUP) !in Attempted(query, accepts, Plan(query))
    ensures Create !in Attempted(query, accepts, Plan(query))
  {
    var plan := Plan(query);
    var evBits := query(0).value;
    var categories := CategoryCalls(query, evBits, EV_MAX + 1);
    var front := [QueryBits(0)] + categories + EXTRAS;
    assert plan == front + FINISH by {
      Assoc([QueryBits(0)], categories, EXTRAS + FINISH);
      Assoc([QueryBits(0)] + categories, EXTRAS, FINISH);
    }
    AttemptedWithin(query, accepts, plan, i);
    var r := Attempted(query, accepts, plan);
    assert r == front[..|r|] by {
      TakeAppend(front, FINISH, |r|);
    }
    NoDeviceBeforeFinish(query, evBits);
    InTake(front, |r|);
  }

  /** Neither the identity nor the creation is requested before the fixed finish. */
  lemma NoDeviceBeforeFinish(query: Query, evBits: seq<Word>)
    ensures var front := [QueryBits(0)] + CategoryCalls(query, evBits, EV_MAX + 1) + EXTRAS;
      Setup(SETUP) !in front && Create !in front
  {
    CategoryCallsOrdered(query, evBits, EV_MAX + 1);
  }

  /** Every category the keyboard reports is in the plan. */
  lemma PlanHasReportedCategories(query: Query, evBits: seq<Word>)
    requires query(0) == Some(evBits)
    ensures forall ev: nat :: 1 <= ev <= EV_MAX && BitSet(evBits, ev) ==> SetEvBit(ev) in Plan(query)
  {
    forall ev: nat | 1 <= ev <= EV_MAX && BitSet(evBits, ev)
      ensures SetEvBit(ev) in Plan(query)
    {
      CategoryRegistered(query, evBits, ev);
    }
  }

  /** Every code the keyboard reports, in a category it reports, is in the plan. */
  lemma PlanHasReportedCodes(query: Query, evBits: seq<Word>)
    requires query(0) == Some(evBits)
    ensures forall w: CodeWriter, code: nat ::
      (BitSet(evBits, CategoryOf(w)) && query(CategoryOf(w)).Some? &&
       code <= KEY_MAX && BitSet(query(CategoryOf(w)).value, code)) ==> SetCodeBit(w, code) in Plan(query)
  {
    forall w: CodeWriter, code: nat |
      BitSet(evBits, CategoryOf(w)) && query(CategoryOf(w)).Some? &&
      code <= KEY_MAX && BitSet(query(CategoryOf(w)).value, code)
      ensures SetCodeBit(w, code) in Plan(query)
    {
      CodeRegistered(query, evBits, w, code);
    }
  }

  /** When the device is created, every planned request was made: every category and
      code the keyboard reports, the mouse capabilities, the identity and the creation. */
  lemma CreatedMirrorsKeyboard(query: Query, accepts: Call -> bool, evBits: seq<Word>)
    requires query(0) == Some(evBits) && NoneFails(query, accepts, Plan(query))
    ensures var made := Attempted(query, accepts, Plan(query));
      (forall ev: nat :: 1 <= ev <= EV_MAX && BitSet(evBits, ev) ==> SetEvBit(ev) in made) &&
      (forall w: CodeWriter, code: nat ::
         (BitSet(evBits, CategoryOf(w)) && query(CategoryOf(w)).Some? &&
          code <= KEY_MAX && BitSet(query(CategoryOf(w)).value, code)) ==> SetCodeBit(w, code) in made) &&
      |made| >= |EXTRAS + FINISH| && made[|made| - |EXTRAS + FINISH|..] == EXTRAS + FINISH
  {
    AttemptedAll(query, accepts, Plan(query));
    PlanHasReportedCategories(query, evBits);
    PlanHasReportedCodes(query, evBits);
    ExtrasUnconditional(query);
  }

  lemma TakeAppend(a: seq<Call>, b: seq<Call>, n: nat)
    requires n <= |a|
    ensures (a + b)[..n] == a[..n]
  {
  }

  lemma InTake(a: seq<Call>, n: nat)
    requires n <= |a|
    ensures forall c :: c in a[..n] ==> c in a
  {
  }

  // ---------------------------------------------------------------------------
  // The mirroring code

  /** A device request (`ioctl` on the synthetic device). */
  method Request(accepts: Call -> bool, c: Call) returns (ok: bool)
    ensures ok <==> accepts(c)
  {
    ok := accepts(c);
  }

  /** The inner loop over codes 0..`KEY_MAX` of one category, with request `w`. */
  method MirrorCodes(ghost query: Query, accepts: Call -> bool, w: CodeWriter, keyBits: seq<Word>)
    returns (calls: seq<Call>, ok: bool)
    ensures var whole := CodeCalls(w, keyBits, KEY_MAX + 1);
      calls == Attempted(query, accepts, whole) && (ok <==> NoneFails(query, accepts, whole))
  {
    calls := [];
    for code := 0 to KEY_MAX + 1
      invariant calls == CodeCalls(w, keyBits, code) && NoneFails(query, accepts, calls)
    {
      if !BitSet(keyBits, code) {
        assert CodeCalls(w, keyBits, code + 1) == calls + [];
        continue;
      }
      var c := SetCodeBit(w, code);
      ok := Request(accepts, c);
      if !ok {
        CodeFails(query, accepts, w, keyBits, code, KEY_MAX + 1);
        return calls + [c], false;
      }
      assert NoneFails(query, accepts, calls + [c]) by {
        NoneFailsConcat(query, accepts, calls, [c]);
      }
      calls := calls + [c];
    }
    ok := true;
    AttemptedAll(query, accepts, calls);
  }

  /** One iteration of the outer loop: register category `ev` if the keyboard has it,
      and, for a category with codes, query its codes and register each. */
  method MirrorCategory(query: Query, accepts: Call -> bool, evBits: seq<Word>, ev: nat)
    returns (calls: seq<Call>, ok: bool)
    ensures var whole := CategoryBody(query, evBits, ev);
      calls == Attempted(query, accepts, whole) && (ok <==> NoneFails(query, accepts, whole))
  {
    ghost var whole := CategoryBody(query, evBits, ev);
    if !BitSet(evBits, ev) {
      return [], true;
    }
    ok := Request(accepts, SetEvBit(ev));
    calls := [SetEvBit(ev)];
    if !ok {
      assert whole[0] == SetEvBit(ev);
      return;
    }
    PassesAlone(query, accepts, SetEvBit(ev));
    var writer := CodeWriterFor(ev);
    if writer.None? {
      assert whole == calls;
      return;
    }
    var answer := query(ev);
    ghost var codes := AnsweredCodes(query, writer.value);
    assert whole == [SetEvBit(ev)] + ([QueryBits(ev)] + codes);
    calls := calls + [QueryBits(ev)];
    if answer.None? {
      FailsAlone(query, accepts, QueryBits(ev));
      FailsWithin(query, accepts, [SetEvBit(ev)], [QueryBits(ev)], codes);
      return calls, false;
    }
    PassesAlone(query, accepts, QueryBits(ev));
    NoneFailsConcat(query, accepts, [SetEvBit(ev)], [QueryBits(ev)]);
    var codeCalls, codesOk := MirrorCodes(query, accepts, writer.value, answer.value);
    assert whole == calls + codes;
    AttemptedAfter(query, accepts, calls, codes);
    NoneFailsConcat(query, accepts, calls, codes);
    calls, ok := calls + codeCalls, codesOk;
  }

  /** The fixed requests, one by one. */
  lemma ExtrasInOrder()
    ensures var whole := EXTRAS + FINISH;
      |whole| == 9 &&
      whole[0] == SetEvBit(EV_KEY) && whole[1] == SetCodeBit(KeyBits, BTN_LEFT) &&
      whole[2] == SetCodeBit(KeyBits, BTN_MIDDLE) && whole[3] == SetCodeBit(KeyBits, BTN_RIGHT) &&
      whole[4] == SetEvBit(EV_REL) && whole[5] == SetCodeBit(RelBits, REL_X) &&
      whole[6] == SetCodeBit(RelBits, REL_Y) && whole[7] == Setup(SETUP) && whole[8] == Create
  {
  }

  /** Issues `c`, request `k` of `whole`, after the earlier ones, `calls`. */
  method Issue(ghost query: Query, accepts: Call -> bool, ghost whole: seq<Call>, ghost k: nat,
               calls: seq<Call>, c: Call)
    returns (calls': seq<Call>, ok: bool)
    requires k < |whole| && whole[k] == c && calls == whole[..k]
    requires !c.QueryBits? && NoneFails(query, accepts, calls)
    ensures calls' == whole[..k + 1]
    ensures ok <==> NoneFails(query, accepts, calls')
    ensures !ok ==> calls' == Attempted(query, accepts, whole) && !NoneFails(query, accepts, whole)
  {
    ok := Request(accepts, c);
    calls' := calls + [c];
    ghost var rest := whole[k + 1..];
    assert calls' == whole[..k + 1];
    assert whole == calls + ([c] + rest);
    NoneFailsConcat(query, accepts, calls, [c]);
    if ok {
      PassesAlone(query, accepts, c);
    } else {
      FailsAlone(query, accepts, c);
      FailsWithin(query, accepts, calls, [c], rest);
    }
  }

  /** The mouse capabilities, then the identity and the creation of the device; each
      request in turn, stopping at the first that fails. */
  method RegisterExtras(ghost query: Query, accepts: Call -> bool) returns (calls: seq<Call>, ok: bool)
    ensures var whole := EXTRAS + FINISH;
      calls == Attempted(query, accepts, whole) && (ok <==> NoneFails(query, accepts, whole))
  {
    ghost var whole := EXTRAS + FINISH;
    ExtrasInOrder();
    calls := [];
    calls, ok := Issue(query, accepts, whole, 0, calls, SetEvBit(EV_KEY));
    if !ok { return; }
    calls, ok := Issue(query, accepts, whole, 1, calls, SetCodeBit(KeyBits, BTN_LEFT));
    if !ok { return; }
    calls, ok := Issue(query, accepts, whole, 2, calls, SetCodeBit(KeyBits, BTN_MIDDLE));
    if !ok { return; }
    calls, ok := Issue(query, accepts, whole, 3, calls, SetCodeBit(KeyBits, BTN_RIGHT));
    if !ok { return; }
    calls, ok := Issue(query, accepts, whole, 4, calls, SetEvBit(EV_REL));
    if !ok { return; }
    calls, ok := Issue(query, accepts, whole, 5, calls, SetCodeBit(RelBits, REL_X));
    if !ok { return; }
    calls, ok := Issue(query, accepts, whole, 6, calls, SetCodeBit(RelBits, REL_Y));
    if !ok { return; }
    calls, ok := Issue(query, accepts, whole, 7, calls, Setup(SETUP));
    if !ok { return; }
    calls, ok := Issue(query, accepts, whole, 8, calls, Create);
    if ok {
      assert calls == whole;
      AttemptedAll(query, accepts, whole);
    }
  }

  /** The whole mirroring: query the keyboard's categories, mirror each, add the mouse
      capabilities and create the device. `created` reports that every request
      succeeded; `calls` are the requests made, in order. */
  method Mirror(query: Query, accepts: Call -> bool) returns (calls: seq<Call>, created: bool)
    ensures calls == Attempted(query, accepts, Plan(query))
    ensures created <==> NoneFails(query, accepts, Plan(query))
  {
    ghost var whole := Plan(query);
    calls := [QueryBits(0)];
    var answer := query(0);
    if answer.None? {
      assert whole == calls;
      FailsAlone(query, accepts, QueryBits(0));
      return calls, false;
    }
    var evBits := answer.value;
    for ev := 1 to EV_MAX + 1
      invariant MirroredUpTo(query, accepts, evBits, calls, ev)
    {
      var part, partOk := MirrorCategory(query, accepts, evBits, ev);
      if !partOk {
        CategoryFails(query, accepts, evBits, calls, ev);
        return calls + part, false;
      }
      AttemptedAll(query, accepts, CategoryBody(query, evBits, ev));
      CategoryPasses(query, accepts, evBits, calls, ev);
      calls := calls + part;
    }
    var extras, ok := RegisterExtras(query, accepts);
    ExtrasAfterCategories(query, accepts, evBits, calls);
    calls, created := calls + extras, ok;
  }
}
