/** The login page: the form's submit handler, which refuses empty fields
    and otherwise brackets the provider's login between turning the loading
    flag on and off, and the page's own class-name joiner. Toasts are
    returned as values. */
module LoginPage {
  import opened Wrappers
  import Seqs
  import Text
  import Auth
  import AuthContext

  const MissingFields: string := "Por favor, preencha todos os campos"
  const LoggedIn: string := "Login realizado com sucesso!"

  datatype Toast = Error(message: string) | Info(message: string)

  /** What the handler does, in the order it does it. */
  datatype Step = SetLoading(on: bool) | CallLogin(email: string, password: string)

  /** An argument of `cn`: a string, a boolean or `undefined`. */
  datatype ClassArg = Str(s: string) | Flag(b: bool) | Undefined

  /** `Boolean(x)` */
  predicate Truthy(x: ClassArg) {
    (x.Str? && x.s != "") || (x.Flag? && x.b)
  }

  /** `String(x)` for the values that survive the filter. */
  function ClassText(x: ClassArg): string {
    match x
    case Str(s) => s
    case Flag(b) => if b then "true" else "false"
    case Undefined => "undefined"
  }

  function Texts(xs: seq<ClassArg>): (r: seq<string>)
    ensures |r| == |xs|
    ensures forall i :: 0 <= i < |xs| ==> r[i] == ClassText(xs[i])
  {
    if xs == [] then [] else [ClassText(xs[0])] + Texts(xs[1..])
  }

  /** `classes.filter(Boolean).join(' ')` */
  function Cn(classes: seq<ClassArg>): string {
    Text.Join(Texts(Seqs.Filter(classes, Truthy)), " ")
  }

  lemma {:induction false} JoinNonEmpty(parts: seq<string>, sep: string)
    requires parts != [] && parts[0] != ""
    ensures Text.Join(parts, sep) != ""
  {
  }

  lemma TextsAppend(a: seq<ClassArg>, b: seq<ClassArg>)
    ensures Texts(a + b) == Texts(a) + Texts(b)
  {
  }

  /** The joined class list is empty exactly when no argument is truthy. */
  lemma CnEmpty(classes: seq<ClassArg>)
    ensures Cn(classes) == "" <==> forall i :: 0 <= i < |classes| ==> !Truthy(classes[i])
  {
    var kept := Seqs.Filter(classes, Truthy);
    Seqs.FilterNonEmpty(classes, Truthy);
    if kept != [] {
      assert Truthy(kept[0]);
      assert Texts(kept)[0] != "";
      JoinNonEmpty(Texts(kept), " ");
    }
  }

  /** A falsy argument appended at the end leaves the class string as it
      was; a truthy one is added after a single space, or alone when
      nothing came before it. */
  lemma CnAppend(classes: seq<ClassArg>, x: ClassArg)
    ensures !Truthy(x) ==> Cn(classes + [x]) == Cn(classes)
    ensures Truthy(x) && Cn(classes) == "" ==> Cn(classes + [x]) == ClassText(x)
    ensures Truthy(x) && Cn(classes) != "" ==> Cn(classes + [x]) == Cn(classes) + " " + ClassText(x)
  {
    var kept := Seqs.Filter(classes, Truthy);
    Seqs.FilterAppend(classes, x, Truthy);
    if Truthy(x) {
      TextsAppend(kept, [x]);
      assert Texts([x]) == [ClassText(x)];
      if kept == [] {
        assert Texts(kept + [x]) == [ClassText(x)];
      } else {
        Text.JoinAppend(Texts(kept), [ClassText(x)], " ");
      }
      CnEmpty(classes);
      if Cn(classes) == "" {
        assert kept == [] by {
          Seqs.FilterNonEmpty(classes, Truthy);
        }
      }
    } else {
      assert kept + [] == kept;
    }
  }

  /** The controls while a login is pending: the inputs and the button are
      disabled and the button reads "Entrando...". */
  datatype Controls = Controls(emailDisabled: bool, passwordDisabled: bool, submitDisabled: bool, submitLabel: string)

  function ControlsFor(isLoading: bool): (c: Controls)
    ensures c.emailDisabled == c.passwordDisabled == c.submitDisabled == isLoading
    ensures c.submitLabel == (if isLoading then "Entrando..." else "Entrar")
  {
    Controls(isLoading, isLoading, isLoading, if isLoading then "Entrando..." else "Entrar")
  }

  class LoginForm {
    var email: string
    var password: string
    var isLoading: bool
    /** Every loading update and login call the handler has made. */
    ghost var steps: seq<Step>

    constructor()
      ensures email == "" && password == "" && !isLoading && steps == []
    {
      email := "";
      password := "";
      isLoading := false;
      steps := [];
    }

    method SetEmail(value: string)
      modifies this
      ensures email == value && password == old(password) && isLoading == old(isLoading)
      ensures steps == old(steps)
    {
      email := value;
    }

    method SetPassword(value: string)
      modifies this
      ensures password == value && email == old(email) && isLoading == old(isLoading)
      ensures steps == old(steps)
    {
      password := value;
    }

    /** `handleSubmit`. An empty field yields the error toast and nothing
        else. Otherwise the loading flag goes on, the provider's login runs,
        and the flag goes off again whatever the outcome. A success shows
        the page's own toast; a failure shows the error toast the auth
        service raises before it rethrows, which the handler swallows. */
    method HandleSubmit(auth: AuthContext.AuthProvider, now: nat)
        returns (toast: Option<Toast>, ghost outcome: Option<Result<Auth.LoginResponse, string>>)
      modifies this, auth, auth.store
      ensures email == old(email) && password == old(password)
      ensures outcome.None? <==> old(email) == "" || old(password) == ""
      ensures outcome.None? ==>
                toast == Some(Error(MissingFields)) &&
                isLoading == old(isLoading) && steps == old(steps) &&
                auth.user == old(auth.user) && auth.store.items == old(auth.store.items)
      ensures outcome.Some? ==> outcome.value == Auth.Authenticate(email, password, now)
      ensures outcome.Some? ==>
                steps == old(steps) + [SetLoading(true), CallLogin(email, password)] + [SetLoading(false)] &&
                !isLoading &&
                auth.store.items == Auth.StoreAfterLogin(old(auth.store.items), outcome.value)
      ensures outcome.Some? && outcome.value.Success? ==>
                auth.user == Some(outcome.value.value.user) && toast == Some(Info(LoggedIn))
      ensures outcome.Some? && outcome.value.Failure? ==>
                auth.user == old(auth.user) && toast == Some(Error(Auth.LoginFailed))
    {
      if email == "" || password == "" {
        return Some(Error(MissingFields)), None;
      }
      isLoading := true;
      steps := steps + [SetLoading(true), CallLogin(email, password)];
      var r, _ := auth.Login(email, password, now);
      outcome := Some(r);
      if r.Success? {
        toast := Some(Info(LoggedIn));
      } else {
        toast := Some(Error(Auth.LoginFailed));
      }
      isLoading := false;
      steps := steps + [SetLoading(false)];
    }
  }
}
