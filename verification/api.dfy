/** The converter's result (minihtml.go:14-24): named template sections,
    each a list of HTML fragments, and the rendering of one section as the
    fragments written one after another. */
module Template {
  import opened Text

  /** The fragments kept under `key`; a missing section reads as empty. */
  function Section(template: map<string, seq<string>>, key: string): seq<string> {
    if key in template then template[key] else []
  }

  class Api {
    var template: map<string, seq<string>>

    constructor ()
      ensures template == map[]
    {
      template := map[];
    }

    /** ParameterToString (minihtml.go:18-24): the section's fragments in
        order, with nothing between them. */
    method ParameterToString(s: string) returns (r: string)
      ensures r == Concat(Section(template, s))
    {
      var b := "";
      var vs := Section(template, s);
      var i := 0;
      while i < |vs|
        invariant 0 <= i <= |vs|
        invariant b == Concat(vs[..i])
      {
        ConcatAppend(vs[..i], vs[i]);
        assert vs[..i + 1] == vs[..i] + [vs[i]];
        b := b + vs[i];
        i := i + 1;
      }
      assert vs[..i] == vs;
      r := b;
    }
  }

}
