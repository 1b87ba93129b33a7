/** Types and facts shared by the component models. */
module Common {
  datatype Option<+T> = None | Some(value: T)

  newtype byte = x: int | 0 <= x < 256

  /** There is always a text longer than all of some texts, and so different from them. */
  lemma {:induction false} LongerThanAll(texts: set<string>) returns (s: string)
    ensures s != "" && forall text :: text in texts ==> |text| < |s|
  {
    if texts == {} {
      s := "a";
    } else {
      var text :| text in texts;
      var t := LongerThanAll(texts - {text});
      s := if |text| < |t| then t else text + "a";
      forall other | other in texts ensures |other| < |s| {
        if other != text { assert other in texts - {text}; }
      }
    }
  }
}
