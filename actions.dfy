/** The actions of the running backup: every call of set_current_action adds
    one, the latest is the current action, and the files named by all of them
    are the files uploaded so far. */
module Actions {

  import opened Wrappers

  datatype Action = Action(time: int, message: string, file: Option<string>)

  /** The file an action uploaded, as a list of zero or one names: an absent or
      empty file name uploads nothing. */
  function FileOf(a: Action): (r: seq<string>)
    ensures |r| <= 1
    ensures r != [] <==> a.file.Some? && a.file.value != ""
    ensures r != [] ==> r[0] == a.file.value
  {
    if a.file.Some? && a.file.value != "" then [a.file.value] else []
  }

  /** The files uploaded by the actions, in the order of the actions. */
  function FilesOf(actions: seq<Action>): seq<string> {
    if |actions| == 0 then [] else FileOf(actions[0]) + FilesOf(actions[1..])
  }

  /** The latest action, if there is one. */
  function Latest(actions: seq<Action>): (r: Option<Action>)
    ensures r.None? <==> actions == []
    ensures r.Some? ==> r.value == actions[|actions| - 1]
  {
    if actions == [] then None else Some(actions[|actions| - 1])
  }

  /** The files of a run made of two parts are those of the first part followed
      by those of the second. */
  lemma {:induction false} FilesOfAppend(a: seq<Action>, b: seq<Action>)
    ensures FilesOf(a + b) == FilesOf(a) + FilesOf(b)
  {
    if |a| == 0 {
      assert a + b == b;
    } else {
      var ab := a + b;
      assert ab[0] == a[0] && ab[1..] == a[1..] + b;
      calc {
        FilesOf(ab);
        FileOf(a[0]) + FilesOf(a[1..] + b);
        { FilesOfAppend(a[1..], b); }
        FileOf(a[0]) + (FilesOf(a[1..]) + FilesOf(b));
        (FileOf(a[0]) + FilesOf(a[1..])) + FilesOf(b);
      }
    }
  }

  /** Each uploaded file is the file of some action, and an action that names a
      non-empty file has it among the uploaded files. */
  lemma {:induction false} FilesOfAreActionFiles(actions: seq<Action>)
    ensures forall f :: f in FilesOf(actions) <==>
      exists i :: 0 <= i < |actions| && actions[i].file == Some(f) && f != ""
  {
    if actions != [] {
      FilesOfAreActionFiles(actions[1..]);
      forall f | (exists i :: 0 <= i < |actions| && actions[i].file == Some(f) && f != "")
        ensures f in FilesOf(actions)
      {
        var i :| 0 <= i < |actions| && actions[i].file == Some(f) && f != "";
        if i > 0 {
          assert actions[1..][i - 1] == actions[i];
        }
      }
      forall f | f in FilesOf(actions)
        ensures exists i :: 0 <= i < |actions| && actions[i].file == Some(f) && f != ""
      {
        if f in FileOf(actions[0]) {
          assert actions[0].file == Some(f) && f != "";
        } else {
          var j :| 0 <= j < |actions| - 1 && actions[1..][j].file == Some(f) && f != "";
          assert actions[j + 1].file == Some(f);
        }
      }
    }
  }

}
