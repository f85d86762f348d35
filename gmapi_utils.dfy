/**
 * The older copy of the helpers in gmapi/utils/utils.py.
 */
module GmapiUtils {
  import opened Py
  import Utils

  /**
   * to_camel_case as written: its body reads the name `a`, which is bound
   * nowhere, so every call raises NameError before s is looked at.
   */
  function ToCamelCase(s: string): (r: Result<string>)
    ensures r == Err(NameError("a"))
  {
    Err(NameError("a"))
  }

  /** The documented example fails as written, while the intended conversion gives it. */
  lemma ToCamelCaseFailsOnDocExample()
    ensures ToCamelCase("test_string").Err?
    ensures Utils.ToCamelCase("test_string") == "TestString"
  {
    Utils.CamelCaseTestString();
  }

  /** accept_singleton: the same argument rewriting as the later copy, default position 1. */
  method AcceptSingleton(expected: Utils.PyClass, args: seq<Utils.PyObj>, position: nat := 1)
    returns (r: Result<seq<Utils.PyObj>>)
    ensures r.Err? <==> position >= |args|
    ensures r.Err? ==> r.error == IndexError
    ensures r.Ok? ==> position < |args| && Utils.Wrapped(expected, args, position, r.value)
  {
    r := Utils.AcceptSingleton(expected, args, position);
  }
}
