/** The double loop of `notifyAppointments` in
    `src/job/notifyAppointments.ts`, for any kind of booking: each booking's
    text to each listed number in turn, every provider failure caught. */
module ReminderSweep {
  import opened Sms

  /** One try of the inner loop: which appointment, which listed number, and
      what the provider did with the request. */
  datatype Attempt = Attempt(booking: nat, recipient: string, outcome: SendOutcome)

  /** Appointment `i`'s sends: its one `message` to each of `numbers` in
      list order, as provider calls `first` onwards. */
  function AttemptsFor(numbers: seq<string>, i: nat, message: string, first: nat,
                       sender: string, provider: Provider): (r: seq<Attempt>)
    ensures |r| == |numbers|
  {
    seq(|numbers|, j requires 0 <= j < |numbers| => AttemptAt(numbers, i, message, first, sender, provider, j))
  }

  /** Send `j` of appointment `i`'s row: the `first + j`-th provider call. */
  function AttemptAt(numbers: seq<string>, i: nat, message: string, first: nat,
                     sender: string, provider: Provider, j: nat): Attempt
    requires j < |numbers|
  {
    Attempt(i, numbers[j], SendSms(provider, first + j, sender, message, numbers[j]))
  }

  /** The sends for the first `n` appointments, `render(b)` being the text
      for booking `b`, in order. No outcome decides whether a later send
      happens. */
  function Sweep<B>(numbers: seq<string>, bookings: seq<B>, n: nat, render: B -> string,
                    sender: string, provider: Provider): seq<Attempt>
    requires n <= |bookings|
  {
    if n == 0 then []
    else
      var prev := Sweep(numbers, bookings, n - 1, render, sender, provider);
      prev + AttemptsFor(numbers, n - 1, render(bookings[n - 1]), |prev|, sender, provider)
  }

  /** `n` appointments give exactly `n` sends per listed number. */
  lemma {:induction false} SweepLength<B>(numbers: seq<string>, bookings: seq<B>, n: nat, render: B -> string,
                                          sender: string, provider: Provider)
    requires n <= |bookings|
    ensures |Sweep(numbers, bookings, n, render, sender, provider)| == n * |numbers|
  {
    if n > 0 {
      SweepLength(numbers, bookings, n - 1, render, sender, provider);
      assert n * |numbers| == (n - 1) * |numbers| + |numbers|;
    }
  }

  /** Appointment `i`'s send to listed number `j` comes right after the
      sends for the appointments before it, which `SweepLength` counts as
      `i * |numbers|`: each pair is tried exactly once, at a fixed place,
      with the same message for every number and with the listed number,
      never the patient's, as recipient. */
  lemma SweepAt<B>(numbers: seq<string>, bookings: seq<B>, n: nat, render: B -> string,
                   sender: string, provider: Provider, i: nat, j: nat)
    requires n <= |bookings| && i < n && j < |numbers|
    ensures var k := |Sweep(numbers, bookings, i, render, sender, provider)| + j;
      k < |Sweep(numbers, bookings, n, render, sender, provider)| &&
      var a := Sweep(numbers, bookings, n, render, sender, provider)[k];
      && a.booking == i
      && a.recipient == numbers[j]
      && a.outcome.message.to == Destination(numbers[j])
      && a.outcome.message.body == render(bookings[i])
      && (a.outcome.Delivered? <==> provider(k, a.outcome.message))
  {
    var before := Sweep(numbers, bookings, i, render, sender, provider);
    var k := |before| + j;
    SweepEntry(numbers, bookings, n, render, sender, provider, i, j);
    AttemptFacts(numbers, i, render(bookings[i]), |before|, sender, provider, j);
  }

  /** One send: the appointment's text to the listed number's WhatsApp
      address, accepted exactly when the provider accepts that call. */
  lemma AttemptFacts(numbers: seq<string>, i: nat, message: string, first: nat,
                     sender: string, provider: Provider, j: nat)
    requires j < |numbers|
    ensures var a := AttemptAt(numbers, i, message, first, sender, provider, j);
      && a.booking == i
      && a.recipient == numbers[j]
      && a.outcome.message.to == Destination(numbers[j])
      && a.outcome.message.body == message
      && (a.outcome.Delivered? <==> provider(first + j, a.outcome.message))
  {
  }

  /** Where appointment `i`'s send to listed number `j` sits in the sweep. */
  lemma SweepEntry<B>(numbers: seq<string>, bookings: seq<B>, n: nat, render: B -> string,
                      sender: string, provider: Provider, i: nat, j: nat)
    requires n <= |bookings| && i < n && j < |numbers|
    ensures var first := |Sweep(numbers, bookings, i, render, sender, provider)|;
      first + j < |Sweep(numbers, bookings, n, render, sender, provider)| &&
      Sweep(numbers, bookings, n, render, sender, provider)[first + j]
        == AttemptAt(numbers, i, render(bookings[i]), first, sender, provider, j)
  {
    RowInSweep(numbers, bookings, render, sender, provider, i, j);
    SweepPrefixAt(numbers, bookings, i + 1, n, render, sender, provider,
                  |Sweep(numbers, bookings, i, render, sender, provider)| + j);
  }

  /** A send already made after `m` appointments stays at its place. */
  lemma {:induction false} SweepPrefixAt<B>(numbers: seq<string>, bookings: seq<B>, m: nat, n: nat,
                                            render: B -> string, sender: string, provider: Provider, k: nat)
    requires m <= n <= |bookings| && k < |Sweep(numbers, bookings, m, render, sender, provider)|
    ensures k < |Sweep(numbers, bookings, n, render, sender, provider)|
    ensures Sweep(numbers, bookings, n, render, sender, provider)[k]
         == Sweep(numbers, bookings, m, render, sender, provider)[k]
  {
    if m < n {
      SweepPrefixAt(numbers, bookings, m, n - 1, render, sender, provider, k);
      var prev := Sweep(numbers, bookings, n - 1, render, sender, provider);
      SweepStep(numbers, bookings, n - 1, render, sender, provider);
      ConcatLeftIndex(prev, AttemptsFor(numbers, n - 1, render(bookings[n - 1]), |prev|, sender, provider), k);
    }
  }

  /** The same, within the sweep that ends with appointment `i`. */
  lemma RowInSweep<B>(numbers: seq<string>, bookings: seq<B>, render: B -> string,
                      sender: string, provider: Provider, i: nat, j: nat)
    requires i < |bookings| && j < |numbers|
    ensures var first := |Sweep(numbers, bookings, i, render, sender, provider)|;
      first + j < |Sweep(numbers, bookings, i + 1, render, sender, provider)| &&
      Sweep(numbers, bookings, i + 1, render, sender, provider)[first + j]
        == AttemptAt(numbers, i, render(bookings[i]), first, sender, provider, j)
  {
    var before := Sweep(numbers, bookings, i, render, sender, provider);
    var row := AttemptsFor(numbers, i, render(bookings[i]), |before|, sender, provider);
    SweepStep(numbers, bookings, i, render, sender, provider);
    ConcatIndex(before, row, j);
    RowEntry(numbers, i, render(bookings[i]), |before|, sender, provider, j);
  }

  /** Element `j` of `r` sits at `|b| + j` in `b + r`. */
  lemma ConcatIndex<T>(b: seq<T>, r: seq<T>, j: nat)
    requires j < |r|
    ensures |b| + j < |b + r| && (b + r)[|b| + j] == r[j]
  {
  }

  /** Element `k` of `b` keeps its place in `b + r`. */
  lemma ConcatLeftIndex<T>(b: seq<T>, r: seq<T>, k: nat)
    requires k < |b|
    ensures k < |b + r| && (b + r)[k] == b[k]
  {
  }

  /** Appointment `n`'s row follows the sends for the ones before it. */
  lemma SweepStep<B>(numbers: seq<string>, bookings: seq<B>, n: nat, render: B -> string,
                     sender: string, provider: Provider)
    requires n < |bookings|
    ensures var prev := Sweep(numbers, bookings, n, render, sender, provider);
      Sweep(numbers, bookings, n + 1, render, sender, provider)
        == prev + AttemptsFor(numbers, n, render(bookings[n]), |prev|, sender, provider)
  {
  }

  /** Send `j` of a row is the `j`-th listed number's attempt. */
  lemma RowEntry(numbers: seq<string>, i: nat, message: string, first: nat,
                 sender: string, provider: Provider, j: nat)
    requires j < |numbers|
    ensures AttemptsFor(numbers, i, message, first, sender, provider)[j]
         == AttemptAt(numbers, i, message, first, sender, provider, j)
  {
  }

  /** The sends for fewer appointments are a prefix of those for more. */
  lemma {:induction false} SweepPrefix<B>(numbers: seq<string>, bookings: seq<B>, m: nat, n: nat,
                                          render: B -> string, sender: string, provider: Provider)
    requires m <= n <= |bookings|
    ensures Sweep(numbers, bookings, m, render, sender, provider)
         <= Sweep(numbers, bookings, n, render, sender, provider)
  {
    if m < n {
      SweepPrefix(numbers, bookings, m, n - 1, render, sender, provider);
    }
  }

  /** Send `j` of one appointment's row asks for the same thing under any
      two providers. */
  lemma RowAgrees(numbers: seq<string>, i: nat, message: string, first: nat, sender: string,
                  p: Provider, q: Provider, j: nat)
    requires j < |numbers|
    ensures var a, b := AttemptsFor(numbers, i, message, first, sender, p)[j], AttemptsFor(numbers, i, message, first, sender, q)[j];
      a.booking == b.booking && a.recipient == b.recipient && a.outcome.message == b.outcome.message
  {
    RowEntry(numbers, i, message, first, sender, p, j);
    RowEntry(numbers, i, message, first, sender, q, j);
    SameRequest(p, q, first + j, first + j, sender, message, numbers[j]);
  }

  /** Failure isolation: which sends happen, to whom and with what text does
      not depend on what the provider answers; only the outcomes differ. */
  lemma {:induction false} OutcomesDoNotSteerTheSweep<B>(numbers: seq<string>, bookings: seq<B>, n: nat,
                                                         render: B -> string, sender: string,
                                                         p: Provider, q: Provider)
    requires n <= |bookings|
    ensures var s, t := Sweep(numbers, bookings, n, render, sender, p), Sweep(numbers, bookings, n, render, sender, q);
      |s| == |t| &&
      forall k :: 0 <= k < |s| ==>
        s[k].booking == t[k].booking && s[k].recipient == t[k].recipient && s[k].outcome.message == t[k].outcome.message
  {
    if n > 0 {
      var m := n - 1;
      OutcomesDoNotSteerTheSweep(numbers, bookings, m, render, sender, p, q);
      var message := render(bookings[m]);
      var s0, t0 := Sweep(numbers, bookings, m, render, sender, p), Sweep(numbers, bookings, m, render, sender, q);
      var first := |s0|;
      var s, t := Sweep(numbers, bookings, n, render, sender, p), Sweep(numbers, bookings, n, render, sender, q);
      var rs, rt := AttemptsFor(numbers, m, message, first, sender, p), AttemptsFor(numbers, m, message, first, sender, q);
      assert s == s0 + rs by {
        SweepStep(numbers, bookings, m, render, sender, p);
      }
      assert t == t0 + rt by {
        SweepStep(numbers, bookings, m, render, sender, q);
      }
      forall k | 0 <= k < |s|
        ensures s[k].booking == t[k].booking && s[k].recipient == t[k].recipient
             && s[k].outcome.message == t[k].outcome.message
      {
        if k < first {
          assert s[k] == s0[k] && t[k] == t0[k];
        } else {
          assert s[k] == rs[k - first] && t[k] == rt[k - first];
          RowAgrees(numbers, m, message, first, sender, p, q, k - first);
        }
      }
    }
  }
}
