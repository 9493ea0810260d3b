/** The top bar (`Navbar`): the avatar letter, the name shown beside it, and the theme button's icon. */
module NavbarModel {
  import opened Common
  import opened Records
  import opened Text

  /** `(user?.name || user?.username || user?.email || 'U').charAt(0).toUpperCase()` */
  function Initial(user: Option<User>): (c: char)
    ensures !('a' <= c <= 'z')
    ensures user.None? ==> c == 'U'
    ensures user.Some? && Truthy(user.value.name) ==> c == UpperChar(user.value.name.value[0])
    ensures user.Some? && !Truthy(user.value.name) && Truthy(user.value.username) ==>
              c == UpperChar(user.value.username.value[0])
    ensures user.Some? && !Truthy(user.value.name) && !Truthy(user.value.username) && Truthy(user.value.email) ==>
              c == UpperChar(user.value.email.value[0])
    ensures user.Some? && !Truthy(user.value.name) && !Truthy(user.value.username) && !Truthy(user.value.email) ==>
              c == 'U'
  {
    var source := if user.Some? then OrElse(Or(Or(user.value.name, user.value.username), user.value.email), "U") else "U";
    UpperChar(source[0])
  }

  /** `user?.name || user?.username || 'Utilisateur'`: never empty. */
  function DisplayName(user: Option<User>): (r: string)
    ensures r != ""
    ensures user.Some? && Truthy(user.value.name) ==> r == user.value.name.value
    ensures user.Some? && !Truthy(user.value.name) && Truthy(user.value.username) ==> r == user.value.username.value
    ensures user.None? || (!Truthy(user.value.name) && !Truthy(user.value.username)) ==> r == "Utilisateur"
  {
    if user.Some? then OrElse(Or(user.value.name, user.value.username), "Utilisateur") else "Utilisateur"
  }

  /**
   * The avatar letter is the capitalised first letter of the displayed name whenever that name
   * comes from the user; a user known only by an email shows "Utilisateur" beside the email's initial.
   */
  lemma InitialOfDisplayName(user: Option<User>)
    ensures user.Some? && (Truthy(user.value.name) || Truthy(user.value.username)) ==>
              Initial(user) == UpperChar(DisplayName(user)[0])
    ensures user.None? ==> Initial(user) == UpperChar(DisplayName(user)[0])
    ensures user.Some? && !Truthy(user.value.name) && !Truthy(user.value.username) && Truthy(user.value.email) ==>
              DisplayName(user) == "Utilisateur" && Initial(user) == UpperChar(user.value.email.value[0])
  {
  }

  /** The theme button's icon. */
  datatype Icon = Sun | Moon

  /** `theme === 'dark' ? <Sun/> : <Moon/>` */
  function ThemeIcon(theme: string): (icon: Icon)
    ensures icon == Sun <==> theme == "dark"
  {
    if theme == "dark" then Sun else Moon
  }
}
