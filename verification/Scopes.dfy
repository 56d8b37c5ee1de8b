/** The scope checks of the authorization server and of the resource server. */
module Scopes {
  import opened Wrappers
  import opened Text

  function Tokens(scopes: string): set<string> {
    set w | w in SplitWhitespace(scopes)
  }

  /** What `validate_scopes` decides: every requested token is an allowed one. */
  predicate Allowed(requested: string, allowed: string) {
    Tokens(requested) <= Tokens(allowed)
  }

  /**
   * `validate_scopes`: the error carries the first requested token that is not allowed.
   */
  method ValidateScopes(requested: string, allowed: string) returns (r: Result<(), string>)
    ensures r.Success? <==> Allowed(requested, allowed)
    ensures r.Failure? ==>
      exists i | 0 <= i < |SplitWhitespace(requested)| ::
        && r.error == SplitWhitespace(requested)[i]
        && r.error !in Tokens(allowed)
        && forall j | 0 <= j < i :: SplitWhitespace(requested)[j] in Tokens(allowed)
  {
    var allowedSet := SplitWhitespace(allowed);
    var words := SplitWhitespace(requested);
    for i := 0 to |words|
      invariant forall j | 0 <= j < i :: words[j] in Tokens(allowed)
    {
      if words[i] !in allowedSet {
        assert words[i] in Tokens(requested) && words[i] !in Tokens(allowed);
        return Failure(words[i]);
      }
    }
    return Success(());
  }

  function Elements(words: seq<string>): set<string> {
    set w | w in words
  }

  /** Splitting the joined lists gives them back, so the check is inclusion of the two lists as sets. */
  lemma AllowedOfLists(requested: seq<string>, allowed: seq<string>)
    requires AllWords(requested) && AllWords(allowed)
    ensures Allowed(Join(requested), Join(allowed)) <==> Elements(requested) <= Elements(allowed)
  {
    SplitOfJoin(requested);
    SplitOfJoin(allowed);
  }

  /** Order and repetition of the words on either side do not matter. */
  lemma AllowedIgnoresOrder(a: seq<string>, a': seq<string>, b: seq<string>, b': seq<string>)
    requires AllWords(a) && AllWords(a') && AllWords(b) && AllWords(b')
    requires Elements(a) == Elements(a') && Elements(b) == Elements(b')
    ensures Allowed(Join(a), Join(b)) == Allowed(Join(a'), Join(b'))
  {
    AllowedOfLists(a, b);
    AllowedOfLists(a', b');
  }

  lemma AllowedIsAPreorder(a: string, b: string, c: string)
    ensures Allowed(a, a)
    ensures Allowed(a, b) && Allowed(b, c) ==> Allowed(a, c)
  {
  }
}
