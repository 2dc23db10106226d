/**
 * The top-level Ntswf module: the modules an instance includes when none
 * is selected, the constants that are autoloaded, and the file each of
 * them is loaded from.
 */
module Ntswf {
  import opened RubyValues

  /** Ntswf::DEFAULT_MODULES. */
  const DefaultModules: seq<string> := ["ActivityWorker", "Client", "DecisionWorker", "Utils"]

  /** Ntswf::AUTOLOAD: the default modules and the Instance class. */
  const Autoload: seq<string> := DefaultModules + ["Instance"]

  /** `gsub(/.(?=[A-Z])/, '\0_').downcase`: an underscore after every
      character (but a line break, which `.` does not match) that an
      upper-case letter follows, then every letter in lower case. */
  function Snake(name: string): (r: string)
    ensures forall i :: 0 <= i < |r| ==> !IsUpper(r[i])
    ensures |r| >= |name|
    ensures |name| > 0 ==> |r| > 0 && r[0] == Downcase(name[0])
  {
    if name == [] then ""
    else if name[0] != '\n' && |name| > 1 && IsUpper(name[1]) then [Downcase(name[0]), '_'] + Snake(name[1..])
    else [Downcase(name[0])] + Snake(name[1..])
  }

  /** After the first character, Snake goes on with an underscore when an
      upper-case letter follows and with the rest of the name otherwise. */
  lemma SnakeAfterFirst(name: string)
    requires |name| > 1
    ensures Snake(name)[1..] == if name[0] != '\n' && IsUpper(name[1]) then "_" + Snake(name[1..]) else Snake(name[1..])
  {
    if name[0] != '\n' && IsUpper(name[1]) {
      assert Snake(name) == [Downcase(name[0]), '_'] + Snake(name[1..]);
    } else {
      assert Snake(name) == [Downcase(name[0])] + Snake(name[1..]);
    }
  }

  /** The file a constant is autoloaded from. */
  function AutoloadPath(name: string): (r: string)
    ensures |r| == |Snake(name)| + 9 && r[..6] == "ntswf/" && r[|r| - 3..] == ".rb"
    ensures forall i :: 0 <= i < |r| ==> !IsUpper(r[i])
  {
    "ntswf/" + Snake(name) + ".rb"
  }

  /** Snake-casing a concatenation: an underscore joins the parts when
      the second starts with an upper-case letter. */
  lemma {:induction false} SnakeAppend(a: string, b: string)
    requires |a| > 0 && |b| > 0 && a[|a| - 1] != '\n'
    ensures Snake(a + b) == Snake(a) + (if IsUpper(b[0]) then "_" else "") + Snake(b)
    decreases |a|
  {
    var s := a + b;
    var rest := a[1..];
    var u := if IsUpper(b[0]) then "_" else "";
    assert s[0] == a[0] && s[1..] == rest + b;
    if rest != [] {
      assert s[1] == a[1];
      var p := if a[0] != '\n' && IsUpper(a[1]) then [Downcase(a[0]), '_'] else [Downcase(a[0])];
      assert Snake(s) == p + Snake(rest + b);
      assert Snake(a) == p + Snake(rest);
      SnakeAppend(rest, b);
      Associates(p, Snake(rest) + u, Snake(b));
      Associates(p, Snake(rest), u);
    } else {
      assert Snake(a) == [Downcase(a[0])];
      assert Snake(s) == ([Downcase(a[0])] + u) + Snake(b);
    }
  }

  /** The client is loaded from "ntswf/client.rb". */
  lemma ClientPath()
    ensures AutoloadPath("Client") == "ntswf/client.rb"
  {
    assert Snake("Client") == "client";
  }

  /** A word with no upper-case letter after its first character loses
      only the capital. */
  lemma {:induction false} SnakeWord(word: string)
    requires |word| > 0
    requires forall i :: 1 <= i < |word| ==> !IsUpper(word[i])
    ensures Snake(word) == [Downcase(word[0])] + word[1..]
  {
    var rest := word[1..];
    if rest != [] {
      SnakeWord(rest);
      assert Downcase(rest[0]) == rest[0] && rest == [rest[0]] + rest[1..];
    }
  }

  /** The snake-case form of a two-word name joins the words with an
      underscore. */
  lemma SnakeTwoWords(first: string, second: string)
    requires |first| > 0 && |second| > 0 && first[|first| - 1] != '\n' && IsUpper(second[0])
    requires forall i :: 1 <= i < |first| ==> !IsUpper(first[i])
    requires forall i :: 1 <= i < |second| ==> !IsUpper(second[i])
    ensures Snake(first + second) == [Downcase(first[0])] + first[1..] + "_" + [Downcase(second[0])] + second[1..]
  {
    SnakeAppend(first, second);
    SnakeWord(first);
    SnakeWord(second);
  }

  /** "DecisionWorker" in snake case is "decision_worker". */
  lemma DecisionWorkerSnake(decision: string, worker: string)
    requires decision == "Decision" && worker == "Worker"
    ensures Snake(decision + worker) == "decision_worker"
  {
    SnakeTwoWords(decision, worker);
  }

  /** "DecisionWorker" is loaded from "ntswf/decision_worker.rb". */
  lemma DecisionWorkerPath(decision: string, worker: string)
    requires decision == "Decision" && worker == "Worker"
    ensures AutoloadPath(decision + worker) == "ntswf/decision_worker.rb"
  {
    DecisionWorkerSnake(decision, worker);
  }

  /** A one-word constant is loaded from its name with the capital
      lowered. */
  lemma WordPath(word: string)
    requires |word| > 0 && forall i :: 1 <= i < |word| ==> !IsUpper(word[i])
    ensures AutoloadPath(word) == "ntswf/" + [Downcase(word[0])] + word[1..] + ".rb"
  {
    SnakeWord(word);
  }

  /** "ActivityWorker" is loaded from "ntswf/activity_worker.rb". */
  lemma ActivityWorkerPath(activity: string, worker: string)
    requires activity == "Activity" && worker == "Worker"
    ensures AutoloadPath(activity + worker) == "ntswf/activity_worker.rb"
  {
    SnakeTwoWords(activity, worker);
  }

  /** The autoloaded constants are the default modules, in order, and then
      Instance. */
  lemma AutoloadedConstants()
    ensures |Autoload| == |DefaultModules| + 1 == 5
    ensures forall i :: 0 <= i < |DefaultModules| ==> Autoload[i] == DefaultModules[i]
    ensures Autoload[|DefaultModules|] == "Instance"
  {
  }
}
