/**
 * The keyword-driven half of the content script: the fixed task table,
 * `parseTask`, which classifies a free-text instruction, and
 * `getTaskSteps`, which turns a category into the steps to show.
 *
 * Each step of the table is named by a `StepId`, and its texts are given
 * by `TextOf`; a row of the table lists the ids of its steps in order.
 * The steps themselves are exactly the source's, but proofs about the
 * table's shape then never have to unfold their (long) texts.
 */
module Tasks {
  import opened Wrappers
  import opened JsString
  import opened Steps

  /** The steps of the table, by guide and position. */
  datatype StepId =
    | GitHubNavigate | GitHubSignIn | GitHubNewRepository | GitHubNameRepository | GitHubCreateRepository
    | SignUpFindButton | SignUpEnterEmail | SignUpEnterPassword | SignUpComplete
    | LoginFindButton | LoginEnterUsername | LoginEnterPassword | LoginSubmit
    | SearchLocateBox | SearchEnterTerm | SearchExecute
    | GenericIdentifyGoal | GenericFindLinks | GenericClick

  /** The four texts of a step of the table; a missing `fallback` is the empty string. */
  datatype StepText = StepText(title: string, description: string, selector: string, fallback: string)

  /** The texts of each step, as the table spells them. */
  function TextOf(id: StepId): StepText {
    match id
    case GitHubNavigate => // contentScript.js:13-18
      StepText("Step 1: Navigate to GitHub",
               "Make sure you're on github.com. If not, navigate to https://github.com",
               "body",
               "")
    case GitHubSignIn => // contentScript.js:19-24
      StepText("Step 2: Sign In",
               "Click the 'Sign in' button at the top right corner of the page.",
               "a[href*='login'], a[href*='signin'], a[href='/login'], button[data-ga-click*='Sign in'], .HeaderMenu-link[href*='login']",
               "Look for the Sign in link in the top navigation")
    case GitHubNewRepository => // contentScript.js:25-30
      StepText("Step 3: Create New Repository",
               "After signing in, click the '+' icon in the top right, then select 'New repository', or look for a green 'New' button.",
               "a[href*='/new'], button[aria-label*='New'], summary[aria-label*='New'], .btn-primary[href*='new'], a[href='/new']",
               "Find the 'New' or '+' button in the top navigation bar")
    case GitHubNameRepository => // contentScript.js:31-36
      StepText("Step 4: Name Your Repository",
               "Enter a repository name in the 'Repository name' field.",
               "input[name='repository[name]'], input[id*='repository_name'], input[placeholder*='repository name'], input[type='text'][name*='name']",
               "Find the repository name input field")
    case GitHubCreateRepository => // contentScript.js:37-42
      StepText("Step 5: Create Repository",
               "Scroll down and click the green 'Create repository' button at the bottom.",
               "button[type='submit'], button.btn-primary[type='submit']",
               "Click the green 'Create repository' button")
    case SignUpFindButton => // contentScript.js:50-55
      StepText("Step 1: Find Sign Up Button",
               "Look for a 'Sign up', 'Register', 'Create account', or 'Join' button on the page.",
               "a[href*='signup'], a[href*='register'], a[href*='sign-up'], button[aria-label*='Sign up'], button[aria-label*='Register'], .signup-button, .register-button, a:contains('Sign up'), a:contains('Register')",
               "Look for registration or sign up links/buttons")
    case SignUpEnterEmail => // contentScript.js:56-61
      StepText("Step 2: Enter Email",
               "Enter your email address in the email field.",
               "input[type='email'], input[name*='email'], input[id*='email'], input[placeholder*='email'], input[placeholder*='Email']",
               "Find the email input field")
    case SignUpEnterPassword => // contentScript.js:62-67
      StepText("Step 3: Enter Password",
               "Create and enter a password in the password field.",
               "input[type='password'], input[name*='password'], input[id*='password']",
               "Find the password input field")
    case SignUpComplete => // contentScript.js:68-73
      StepText("Step 4: Complete Registration",
               "Click the 'Sign up', 'Register', or 'Create account' button to complete registration.",
               "button[type='submit'], input[type='submit']",
               "Click the submit or register button")
    case LoginFindButton => // contentScript.js:81-86
      StepText("Step 1: Find Login Button",
               "Look for a 'Sign in', 'Login', or 'Log in' button or link.",
               "a[href*='login'], a[href*='signin'], button[aria-label*='Sign in'], button[aria-label*='Login'], .login-button, .signin-button",
               "Look for login or sign in links/buttons")
    case LoginEnterUsername => // contentScript.js:87-92
      StepText("Step 2: Enter Username/Email",
               "Enter your username or email address in the username/email field.",
               "input[type='text'][name*='user'], input[type='email'], input[name*='username'], input[name*='email'], input[id*='username'], input[id*='email'], input[placeholder*='username'], input[placeholder*='email'], input[placeholder*='Username'], input[placeholder*='Email']",
               "Find the username or email input field")
    case LoginEnterPassword => // contentScript.js:93-98
      StepText("Step 3: Enter Password",
               "Enter your password in the password field.",
               "input[type='password'], input[name*='password'], input[id*='password']",
               "Find the password input field")
    case LoginSubmit => // contentScript.js:99-104
      StepText("Step 4: Submit Login",
               "Click the 'Sign in', 'Login', or 'Log in' button to sign in.",
               "button[type='submit'], button:contains('Sign in'), button:contains('Login'), input[type='submit']",
               "Click the login or sign in button")
    case SearchLocateBox => // contentScript.js:112-117
      StepText("Step 1: Locate Search Box",
               "Find the search box or search bar on the page. It's usually at the top.",
               "input[type='search'], input[name*='search'], input[id*='search'], input[placeholder*='search'], input[placeholder*='Search'], textarea[name*='search'], .search-box, .search-input, [role='search'] input",
               "Look for a search box or search bar")
    case SearchEnterTerm => // contentScript.js:118-123
      StepText("Step 2: Enter Search Term",
               "Type your search query into the search box.",
               "input[type='search'], input[name*='search'], input[id*='search'], input[placeholder*='search'], input[placeholder*='Search']",
               "Enter your search term in the search box")
    case SearchExecute => // contentScript.js:124-129
      StepText("Step 3: Execute Search",
               "Press Enter or click the search button (magnifying glass icon).",
               "button[type='submit'], button[aria-label*='Search'], button[aria-label*='search'], .search-button, input[type='submit'][value*='Search'], button:has(svg[aria-label*='search'])",
               "Press Enter or click the search button")
    case GenericIdentifyGoal => // contentScript.js:137-142
      StepText("Step 1: Identify Your Goal",
               "Look at the page and identify what you want to accomplish.",
               "body",
               "Review the page content")
    case GenericFindLinks => // contentScript.js:143-148
      StepText("Step 2: Find Relevant Links/Buttons",
               "Look for links, buttons, or menu items that relate to your task.",
               "a, button, [role='button'], [role='link']",
               "Look for clickable elements related to your task")
    case GenericClick => // contentScript.js:149-154
      StepText("Step 3: Click and Proceed",
               "Click on the relevant element and continue with your task.",
               "a, button",
               "Click on the element that matches your goal")
  }

  /** A step of the table as the guide receives it: its texts, and no URL check. */
  function TableStep(id: StepId): (s: Step)
    ensures !s.isUrlCheck
  {
    var t := TextOf(id);
    Step(t.title, t.description, t.selector, t.fallback, false)
  }

  /** `[...task.steps]`: the steps under a list of ids, in the same order. */
  function Expand(ids: seq<StepId>): (r: seq<Step>)
    ensures |r| == |ids|
    ensures forall k :: 0 <= k < |ids| ==> r[k] == TableStep(ids[k])
  {
    seq(|ids|, k requires 0 <= k < |ids| => TableStep(ids[k]))
  }

  /** One row of the task table: its key, the keywords that select it and its steps. */
  datatype TaskEntry = TaskEntry(key: string, keywords: seq<string>, steps: seq<StepId>)

  const GitHubTask := TaskEntry(
    "github", ["github", "repository", "repo", "create repo", "new repository", "git repo"],
    [GitHubNavigate, GitHubSignIn, GitHubNewRepository, GitHubNameRepository, GitHubCreateRepository])

  const SignUpTask := TaskEntry(
    "signup", ["sign up", "signup", "register", "create account", "new account", "join"],
    [SignUpFindButton, SignUpEnterEmail, SignUpEnterPassword, SignUpComplete])

  const LoginTask := TaskEntry(
    "login", ["login", "sign in", "signin", "log in", "sign into"],
    [LoginFindButton, LoginEnterUsername, LoginEnterPassword, LoginSubmit])

  const SearchTask := TaskEntry(
    "search", ["search", "find", "look for", "lookup"],
    [SearchLocateBox, SearchEnterTerm, SearchExecute])

  const GenericTask := TaskEntry(
    "generic", ["navigate", "go to", "open", "visit"],
    [GenericIdentifyGoal, GenericFindLinks, GenericClick])

  /** The task table in the order `Object.entries` yields it (insertion order). */
  const Library: seq<TaskEntry> := [GitHubTask, SignUpTask, LoginTask, SearchTask, GenericTask]

  /** The step `getTaskSteps` prepends when the GitHub guide is started off github.com. */
  const UrlCheckStep := Step(
    "Step 0: Navigate to GitHub",
    "Please navigate to https://github.com first, then start the guide again.",
    "body", "", true)

  /** Some keyword of the list occurs in the input (the inner keyword loop). */
  function AnyKeyword(keywords: seq<string>, input: string): (b: bool)
    ensures b <==> exists k :: 0 <= k < |keywords| && Includes(input, keywords[k])
  {
    if keywords == [] then false
    else Includes(input, keywords[0]) || AnyKeyword(keywords[1..], input)
  }

  /** A row the keyword loop can return: not the generic row, and one of its keywords occurs. */
  predicate Selects(entry: TaskEntry, input: string) {
    entry.key != "generic" && AnyKeyword(entry.keywords, input)
  }

  /** The outer loop over the table: the key of the first row that selects the input, if any. */
  function FirstSelecting(entries: seq<TaskEntry>, input: string): (r: Option<string>)
    ensures r.None? <==> forall j :: 0 <= j < |entries| ==> !Selects(entries[j], input)
    ensures r.Some? ==> exists j :: 0 <= j < |entries| && entries[j].key == r.value && Selects(entries[j], input)
                                    && forall i :: 0 <= i < j ==> !Selects(entries[i], input)
  {
    if entries == [] then None
    else if Selects(entries[0], input) then Some(entries[0].key)
    else FirstSelecting(entries[1..], input)
  }

  /**
   * `parseTask`: an instruction that is empty after trimming defaults to the
   * GitHub demo; otherwise the lowercased, trimmed input goes through the
   * keyword loop, then the extra checks for a few literal words, then falls
   * back to `generic`.
   */
  function ParseTask(userInput: string): string {
    if |Trim(userInput)| == 0 then "github" else Classify(Normalise(userInput))
  }

  /** `userInput.toLowerCase().trim()`. */
  function Normalise(userInput: string): string {
    Trim(ToLower(userInput))
  }

  /** The keyword loop on a normalised input, then the literal checks. */
  function Classify(input: string): string {
    match FirstSelecting(Library, input)
    case Some(key) => key
    case None => LiteralChecks(input)
  }

  /** The checks after the keyword loop, for a few literal words, ending in `generic`. */
  function LiteralChecks(input: string): string {
    if Includes(input, "github") then "github"
    else if Includes(input, "sign up") || Includes(input, "register") then "signup"
    else if Includes(input, "login") || Includes(input, "sign in") then "login"
    else if Includes(input, "search") then "search"
    else "generic"
  }

  /** The first row of `entries` stored under `key`. */
  function LookupIn(entries: seq<TaskEntry>, key: string): (r: Option<TaskEntry>)
    ensures r.None? <==> forall j :: 0 <= j < |entries| ==> entries[j].key != key
    ensures r.Some? ==> r.value in entries && r.value.key == key
  {
    if entries == [] then None
    else if entries[0].key == key then Some(entries[0])
    else LookupIn(entries[1..], key)
  }

  /** `taskLibrary[key]`: the row stored under a key. */
  function Lookup(key: string): Option<TaskEntry> {
    LookupIn(Library, key)
  }

  /**
   * `getTaskSteps`: the steps of the row under `taskType` (the generic row for
   * an unknown key), with the URL-check step in front when the GitHub guide is
   * asked for on a page whose URL does not mention github.com.
   */
  function GetTaskSteps(taskType: string, currentUrl: string): seq<Step> {
    var steps := Expand(Lookup(taskType).GetOr(GenericTask).steps);
    if taskType == "github" && !Includes(currentUrl, "github.com") then [UrlCheckStep] + steps
    else steps
  }

  /** The five keys of the table. */
  predicate IsTaskKey(key: string) {
    key == "github" || key == "signup" || key == "login" || key == "search" || key == "generic"
  }

  /**
   * The checks after the keyword loop never decide anything: each word they
   * look for is a keyword of the row they would return, so the loop has
   * already returned whenever one of them occurs.
   */
  lemma ExtraChecksUnreachable(input: string)
    requires FirstSelecting(Library, input).None?
    ensures LiteralChecks(input) == "generic"
    ensures !Includes(input, "github")
    ensures !Includes(input, "sign up") && !Includes(input, "register")
    ensures !Includes(input, "login") && !Includes(input, "sign in")
    ensures !Includes(input, "search")
  {
    assert !Selects(Library[0], input) && !Selects(Library[1], input);
    assert !Selects(Library[2], input) && !Selects(Library[3], input);
    assert GitHubTask.keywords[0] == "github";
    assert SignUpTask.keywords[0] == "sign up" && SignUpTask.keywords[2] == "register";
    assert LoginTask.keywords[0] == "login" && LoginTask.keywords[1] == "sign in";
    assert SearchTask.keywords[0] == "search";
  }

  /**
   * `parseTask` is the first-match search over the table and nothing more:
   * blank input gives `github`, otherwise the key of the first non-generic row
   * with a keyword in the normalised input, and `generic` when there is none.
   */
  lemma ParseTaskFirstMatch(userInput: string)
    ensures |Trim(userInput)| == 0 ==> ParseTask(userInput) == "github"
    ensures |Trim(userInput)| != 0 ==> ParseTask(userInput) == FirstSelecting(Library, Normalise(userInput)).GetOr("generic")
  {
    if |Trim(userInput)| != 0 && FirstSelecting(Library, Normalise(userInput)).None? {
      ExtraChecksUnreachable(Normalise(userInput));
    }
  }

  /**
   * The same, stated over positions in the table: a non-generic result is the
   * key of a row that selects the input with no selecting row before it, and
   * `generic` means no row selects it.
   */
  lemma ParseTaskByPosition(userInput: string)
    requires |Trim(userInput)| != 0
    ensures var input := Normalise(userInput);
            var r := ParseTask(userInput);
            && (r == "generic" <==> forall j :: 0 <= j < |Library| ==> !Selects(Library[j], input))
            && (r != "generic" ==>
                  exists j :: 0 <= j < |Library| && Library[j].key == r && Selects(Library[j], input)
                              && forall i :: 0 <= i < j ==> !Selects(Library[i], input))
  {
    ParseTaskFirstMatch(userInput);
  }

  /** An instruction that is empty or all white space selects the GitHub demo. */
  lemma BlankInstructionIsGitHub(userInput: string)
    requires forall k :: 0 <= k < |userInput| ==> IsWhitespace(userInput[k])
    ensures ParseTask(userInput) == "github"
  {
    TrimEmptyIff(userInput);
  }

  /** `parseTask` always answers with one of the table's keys. */
  lemma ParseTaskIsKey(userInput: string)
    ensures IsTaskKey(ParseTask(userInput))
    ensures Lookup(ParseTask(userInput)).Some?
  {
    if |Trim(userInput)| != 0 {
      ParseTaskFirstMatch(userInput);
      FirstSelectingIsKey(Normalise(userInput));
    }
    LookupKeys(ParseTask(userInput));
  }

  /** The keyword loop can only return a key of the table. */
  lemma FirstSelectingIsKey(input: string)
    ensures FirstSelecting(Library, input).Some? ==> IsTaskKey(FirstSelecting(Library, input).value)
  {
    var r := FirstSelecting(Library, input);
    if r.Some? {
      var j :| 0 <= j < |Library| && Library[j].key == r.value;
      LibraryKey(j);
    }
  }

  /** Each row of the table is filed under one of the five keys. */
  lemma LibraryKey(j: nat)
    requires j < |Library|
    ensures IsTaskKey(Library[j].key)
  {
    if j == 0 {
    } else if j == 1 {
    } else if j == 2 {
    } else if j == 3 {
    }
  }

  /** Each of the five keys finds its own row. */
  lemma LookupKeys(key: string)
    requires IsTaskKey(key)
    ensures Lookup(key).Some? && Lookup(key).value.key == key
  {
    assert Library[0].key == "github";
    assert Library[1..][0].key == "signup";
    assert Library[1..][1..][0].key == "login";
    assert Library[1..][1..][1..][0].key == "search";
    assert Library[1..][1..][1..][1..][0].key == "generic";
  }

  /** A blank instruction selects the GitHub demo. */
  lemma ParseTaskEmpty()
    ensures ParseTask("") == "github"
  {
  }

  /** An input that lowercasing and trimming leave alone goes straight to the keyword loop. */
  lemma ParseNormalised(s: string)
    requires IsNormalised(s)
    ensures ParseTask(s) == Classify(s)
  {
    ToLowerOfLower(s);
    TrimUnchanged(s);
  }

  /** A row that selects the input wins when no earlier row does. */
  lemma FirstSelectingAt(entries: seq<TaskEntry>, s: string, j: nat)
    requires j < |entries| && Selects(entries[j], s)
    requires forall i :: 0 <= i < j ==> !Selects(entries[i], s)
    ensures FirstSelecting(entries, s) == Some(entries[j].key)
  {
    var j' :| 0 <= j' < |entries| && entries[j'].key == FirstSelecting(entries, s).value && Selects(entries[j'], s)
              && forall i :: 0 <= i < j' ==> !Selects(entries[i], s);
    assert j' == j;
  }

  /** An input that lowercasing and trimming leave alone. */
  predicate IsNormalised(s: string) {
    s != [] && !IsWhitespace(s[0]) && !IsWhitespace(s[|s| - 1]) && forall k :: 0 <= k < |s| ==> !IsUpper(s[k])
  }

  /**
   * An input already in normal form is classified by position: the row at
   * `j` selects it and no earlier row does, so `parseTask` returns its key.
   */
  lemma ParseTaskAt(s: string, j: nat)
    requires IsNormalised(s)
    requires j < |Library| && Selects(Library[j], s)
    requires forall i :: 0 <= i < j ==> !Selects(Library[i], s)
    ensures ParseTask(s) == Library[j].key
  {
    FirstSelectingAt(Library, s, j);
    ParseNormalised(s);
  }

  /** A normalised input with a GitHub keyword is classified `github`. */
  lemma ParseTaskIsGitHub(s: string)
    requires IsNormalised(s) && Selects(Library[0], s)
    ensures ParseTask(s) == "github"
  {
    ParseTaskAt(s, 0);
  }

  /** A normalised input with a sign-up keyword and no GitHub keyword is classified `signup`. */
  lemma ParseTaskIsSignUp(s: string)
    requires IsNormalised(s) && !Selects(Library[0], s) && Selects(Library[1], s)
    ensures ParseTask(s) == "signup"
  {
    ParseTaskAt(s, 1);
  }

  /** A normalised input with a search keyword and no keyword of the first three rows is classified `search`. */
  lemma ParseTaskIsSearch(s: string)
    requires IsNormalised(s) && !Selects(Library[0], s) && !Selects(Library[1], s) && !Selects(Library[2], s)
    requires Selects(Library[3], s)
    ensures ParseTask(s) == "search"
  {
    ParseTaskAt(s, 3);
  }

  /** "create a new github repo" selects the GitHub guide. */
  lemma ParseTaskGitHub()
    ensures ParseTask("create a new github repo") == "github"
  {
    GitHubExample();
    NormalisedExamples();
    ParseTaskIsGitHub("create a new github repo");
  }

  /** The three example instructions are already lowercased and trimmed. */
  lemma NormalisedExamples()
    ensures IsNormalised("create a new github repo")
    ensures IsNormalised("sign up")
    ensures IsNormalised("search for cats")
  {
  }

  /** "create a new github repo" has the keyword `github`. */
  lemma GitHubExample()
    ensures Selects(Library[0], "create a new github repo")
  {
    assert OccursAt("create a new github repo", "github", 13);
  }

  /** "sign up" selects the sign-up guide: no GitHub keyword occurs in it. */
  lemma ParseTaskSignUp()
    ensures ParseTask("sign up") == "signup"
  {
    SignUpExample();
    NormalisedExamples();
    ParseTaskIsSignUp("sign up");
  }

  /** "sign up" has no GitHub keyword and has the sign-up keyword `sign up`. */
  lemma SignUpExample()
    ensures !Selects(Library[0], "sign up") && Selects(Library[1], "sign up")
  {
    NoGitHubKeyword("sign up");
    assert OccursAt("sign up", "sign up", 0);
  }

  /** "search for cats" selects the search guide: no keyword of an earlier row occurs in it. */
  lemma ParseTaskSearch()
    ensures ParseTask("search for cats") == "search"
  {
    SearchNotGitHub();
    SearchNotSignUp();
    SearchNotLogin();
    SearchExample();
    NormalisedExamples();
    ParseTaskIsSearch("search for cats");
  }

  /** "search for cats" has the search keyword `search`. */
  lemma SearchExample()
    ensures Selects(Library[3], "search for cats")
  {
    assert OccursAt("search for cats", "search", 0);
  }

  /** "search for cats" has no GitHub keyword... */
  lemma SearchNotGitHub()
    ensures !Selects(Library[0], "search for cats")
  {
    NoGitHubKeyword("search for cats");
  }

  /** ... no sign-up keyword ... */
  lemma SearchNotSignUp()
    ensures !Selects(Library[1], "search for cats")
  {
    NoSignUpKeyword("search for cats");
  }

  /** ... and no login keyword. */
  lemma SearchNotLogin()
    ensures !Selects(Library[2], "search for cats")
  {
    NoLoginKeyword("search for cats");
  }

  /** Each GitHub keyword holds `g` and `h`, or `r` and `p`: an input missing one of each pair has none. */
  lemma NoGitHubKeyword(s: string)
    requires 'g' !in s || 'h' !in s
    requires 'r' !in s || 'p' !in s
    ensures !Selects(Library[0], s)
  {
    var c1 := if 'g' !in s then 'g' else 'h';
    var c2 := if 'r' !in s then 'r' else 'p';
    MissingCharExcludes(s, "github", c1);
    MissingCharExcludes(s, "repository", c2);
    MissingCharExcludes(s, "repo", c2);
    MissingCharExcludes(s, "create repo", c2);
    MissingCharExcludes(s, "new repository", c2);
    MissingCharExcludes(s, "git repo", c2);
  }

  /** An input without `g`, `u` and `j` has no sign-up keyword. */
  lemma NoSignUpKeyword(s: string)
    requires 'g' !in s && 'u' !in s && 'j' !in s
    ensures !Selects(Library[1], s)
  {
    MissingCharExcludes(s, "sign up", 'g');
    MissingCharExcludes(s, "signup", 'g');
    MissingCharExcludes(s, "register", 'g');
    MissingCharExcludes(s, "create account", 'u');
    MissingCharExcludes(s, "new account", 'u');
    MissingCharExcludes(s, "join", 'j');
  }

  /** An input without `g` and `l` has no login keyword. */
  lemma NoLoginKeyword(s: string)
    requires 'g' !in s && 'l' !in s
    ensures !Selects(Library[2], s)
  {
    MissingCharExcludes(s, "login", 'l');
    MissingCharExcludes(s, "sign in", 'g');
    MissingCharExcludes(s, "signin", 'g');
    MissingCharExcludes(s, "log in", 'l');
    MissingCharExcludes(s, "sign into", 'g');
  }

  /**
   * `getTaskSteps`: an unknown key gets the generic steps; `github` off
   * github.com gets the URL-check step followed by the five GitHub steps;
   * every other case gets the row's own steps unchanged.
   */
  lemma GetTaskStepsCases(taskType: string, currentUrl: string)
    ensures !IsTaskKey(taskType) ==> GetTaskSteps(taskType, currentUrl) == Expand(GenericTask.steps)
    ensures taskType == "github" && !Includes(currentUrl, "github.com") ==>
              && |GetTaskSteps(taskType, currentUrl)| == 6
              && GetTaskSteps(taskType, currentUrl)[0] == UrlCheckStep
              && GetTaskSteps(taskType, currentUrl)[1..] == Expand(GitHubTask.steps)
    ensures IsTaskKey(taskType) && !(taskType == "github" && !Includes(currentUrl, "github.com")) ==>
              exists j :: 0 <= j < |Library| && Library[j].key == taskType
                          && GetTaskSteps(taskType, currentUrl) == Expand(Library[j].steps)
  {
    if IsTaskKey(taskType) {
      LookupKeys(taskType);
    }
  }

  /**
   * Only the first step of a guide can be the URL-check step, and it is there
   * exactly when the GitHub guide is asked for off github.com.
   */
  lemma UrlCheckOnlyInFront(taskType: string, currentUrl: string)
    ensures var steps := GetTaskSteps(taskType, currentUrl);
            forall k :: 0 <= k < |steps| ==>
              (steps[k].isUrlCheck <==> k == 0 && taskType == "github" && !Includes(currentUrl, "github.com"))
  {
  }

  /** Every guide of the table has three to five steps of its own, six with the URL check. */
  lemma TaskStepsLength(taskType: string, currentUrl: string)
    ensures 3 <= |GetTaskSteps(taskType, currentUrl)| <= 6
  {
    if IsTaskKey(taskType) {
      LookupKeys(taskType);
    }
  }

  /** "sign up" loads the four sign-up steps, whether or not the page is on GitHub. */
  lemma SignUpScenario(currentUrl: string)
    ensures GetTaskSteps(ParseTask("sign up"), currentUrl) == Expand(SignUpTask.steps)
    ensures |GetTaskSteps(ParseTask("sign up"), currentUrl)| == 4
  {
    ParseTaskSignUp();
    SignUpSteps(currentUrl);
  }

  /** The sign-up key gets the sign-up row's steps. */
  lemma SignUpSteps(currentUrl: string)
    ensures GetTaskSteps("signup", currentUrl) == Expand(SignUpTask.steps)
  {
    assert Library[1..][0] == SignUpTask;
  }
}
