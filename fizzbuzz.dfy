/**
 The FizzBuzz game of temporary_trash/fizzbuzz.py: for each number the user
 enters, the lines for 1..n; 0 ends the game. Console I/O is replaced by a
 sequence of inputs and a sequence of printed lines. The numbers are
 positive in every round, so Python's `%` and Dafny's agree.
 */
module FizzBuzz {
  import opened Decimal

  /** One line the user typed: a number `int()` accepts, or text it rejects with `ValueError`. */
  datatype Input = Number(n: int) | Unparsable

  /** What is printed for an input `int()` rejects. */
  const InvalidInputMessage: string := "Invalid input. Please enter a number."

  /** The line printed for `i`. */
  function Line(i: nat): string
  {
    if i % 3 == 0 && i % 5 == 0 then "FizzBuzz"
    else if i % 3 == 0 then "Fizz"
    else if i % 5 == 0 then "Buzz"
    else NatToString(i)
  }

  /**
   Each line is determined by divisibility alone, in both directions, and a
   numeric line reads back as the number itself.
   */
  lemma LineCases(i: nat)
    ensures Line(i) == "FizzBuzz" <==> i % 3 == 0 && i % 5 == 0
    ensures Line(i) == "Fizz" <==> i % 3 == 0 && i % 5 != 0
    ensures Line(i) == "Buzz" <==> i % 3 != 0 && i % 5 == 0
    ensures IsDigits(Line(i)) <==> i % 3 != 0 && i % 5 != 0
    ensures IsDigits(Line(i)) ==> Line(i) == NatToString(i) && DigitsValue(Line(i)) == i
  {
    var s := NatToString(i);
    assert '0' <= s[0] <= '9';
    assert "FizzBuzz"[0] == 'F' && "Fizz"[0] == 'F' && "Buzz"[0] == 'B';
    DigitsValueOfNatToString(i);
  }

  /** "FizzBuzz" is printed exactly for the multiples of 15. */
  lemma FizzBuzzIffMultipleOf15(i: nat)
    ensures Line(i) == "FizzBuzz" <==> i % 15 == 0
  {
  }

  /** The lines of one round, `for i in range(1, n + 1)`: none when `n < 1`. */
  function RoundOutput(n: int): (lines: seq<string>)
    ensures |lines| == if n < 1 then 0 else n
  {
    seq(if n < 1 then 0 else n, k requires 0 <= k => Line(k + 1))
  }

  /** One round of the game: the line for each of 1..n, in increasing order. */
  method PlayRound(n: int) returns (lines: seq<string>)
    ensures |lines| == if n < 1 then 0 else n
    ensures forall k :: 0 <= k < |lines| ==> lines[k] == Line(k + 1)
  {
    lines := [];
    var i := 1;
    while i < n + 1
      invariant 1 <= i <= (if n < 1 then 0 else n) + 1
      invariant |lines| == i - 1
      invariant forall k :: 0 <= k < |lines| ==> lines[k] == Line(k + 1)
    {
      var line;
      if i % 3 == 0 && i % 5 == 0 {
        line := "FizzBuzz";
      } else if i % 3 == 0 {
        line := "Fizz";
      } else if i % 5 == 0 {
        line := "Buzz";
      } else {
        line := NatToString(i);
      }
      lines := lines + [line];
      i := i + 1;
    }
  }

  /**
   All lines printed for a sequence of inputs: a round per nonzero number,
   the error message per rejected input, and nothing from a 0 on.
   */
  function SessionOutput(inputs: seq<Input>): seq<string>
  {
    if inputs == [] then []
    else match inputs[0]
      case Unparsable => [InvalidInputMessage] + SessionOutput(inputs[1..])
      case Number(n) => if n == 0 then [] else RoundOutput(n) + SessionOutput(inputs[1..])
  }

  /** The answer to one input other than 0. */
  function Answer(input: Input): seq<string>
  {
    match input
    case Unparsable => [InvalidInputMessage]
    case Number(n) => RoundOutput(n)
  }

  /** One step of a session: the answer to its first input, then the rest; or nothing from a 0 on. */
  lemma SessionOutputStep(inputs: seq<Input>, i: nat)
    requires i < |inputs|
    ensures inputs[i] == Number(0) ==> SessionOutput(inputs[i..]) == []
    ensures inputs[i] != Number(0) ==> SessionOutput(inputs[i..]) == Answer(inputs[i]) + SessionOutput(inputs[i + 1..])
  {
    assert inputs[i..][0] == inputs[i];
    assert inputs[i..][1..] == inputs[i + 1..];
  }

  /** Before the first 0, the output of a session is the output of its parts, one after the other. */
  lemma {:induction false} SessionOutputAppend(pre: seq<Input>, post: seq<Input>)
    requires forall k :: 0 <= k < |pre| ==> pre[k] != Number(0)
    ensures SessionOutput(pre + post) == SessionOutput(pre) + SessionOutput(post)
    decreases |pre|
  {
    if pre != [] {
      assert (pre + post)[0] == pre[0];
      assert (pre + post)[1..] == pre[1..] + post;
      SessionOutputAppend(pre[1..], post);
    } else {
      assert pre + post == post;
    }
  }

  /** Entering 0 ends the game: nothing entered after it is answered. */
  lemma SessionStopsAtZero(pre: seq<Input>, post: seq<Input>)
    requires forall k :: 0 <= k < |pre| ==> pre[k] != Number(0)
    ensures SessionOutput(pre + [Number(0)] + post) == SessionOutput(pre)
  {
    assert pre + [Number(0)] + post == pre + ([Number(0)] + post);
    SessionOutputAppend(pre, [Number(0)] + post);
  }

  /**
   `fizzbuzz()`: read a number per round until 0 is entered; when the inputs
   run out the game ends as well.
   */
  method Play(inputs: seq<Input>) returns (out: seq<string>)
    ensures out == SessionOutput(inputs)
  {
    out := [];
    var i := 0;
    while i < |inputs|
      invariant 0 <= i <= |inputs|
      invariant out + SessionOutput(inputs[i..]) == SessionOutput(inputs)
    {
      SessionOutputStep(inputs, i);
      var input := inputs[i];
      if input == Number(0) {
        assert out == SessionOutput(inputs);
        break;
      }
      var answer;
      if input.Unparsable? {
        answer := [InvalidInputMessage];
      } else {
        answer := PlayRound(input.n);
      }
      assert answer == Answer(input);
      assert out + answer + SessionOutput(inputs[i + 1..]) == out + SessionOutput(inputs[i..]);
      out := out + answer;
      i := i + 1;
    }
    assert i == |inputs| ==> inputs[i..] == [];
  }
}
