/**
 * The admin user editor (components/admin/user-form.tsx): its initial state,
 * the prefill from the user being edited, and the payload it submits, which
 * leaves the password out when an edit leaves it blank.
 */
module UserForm {
  import opened Wrappers
  import opened Records

  /** The form state; every text field is a string, the role one of the two the select offers. */
  datatype Fields = Fields(name: string, email: string, phone: string, role: Role, password: string)

  /** The user handed in for editing, whose fields may be missing. */
  datatype Initial = Initial(name: Option<string>, email: Option<string>, phone: Option<string>, role: Option<Role>)

  /** What the form submits; `password` is None when the key was deleted. */
  datatype Payload = Payload(name: string, email: string, phone: string, role: Role, password: Option<string>)

  /** The state of a new-user form. */
  function Blank(): (r: Fields)
    ensures r.role == Customer
    ensures r.name == "" && r.email == "" && r.phone == "" && r.password == ""
  {
    Fields("", "", "", Customer, "")
  }

  /** `x || ""` for a text field. */
  function TextOr(x: Option<string>): (r: string)
    ensures x.Some? ==> r == x.value
    ensures x.None? ==> r == ""
  {
    x.GetOr("")
  }

  /** The state after the prefill effect: the user's fields with "" for missing ones, the role or customer, and never a password. */
  function Prefill(init: Initial): (r: Fields)
    ensures r.password == ""
    ensures r.role == init.role.GetOr(Customer)
    ensures r.name == TextOr(init.name) && r.email == TextOr(init.email) && r.phone == TextOr(init.phone)
  {
    Fields(TextOr(init.name), TextOr(init.email), TextOr(init.phone), init.role.GetOr(Customer), "")
  }

  /** The prefill input made from a stored user. */
  function FromUser(u: User): Initial {
    Initial(Some(u.name), Some(u.email), u.phone, Some(u.role))
  }

  /** `handleSubmit`: a copy of the state whose `password` key is deleted when editing with a blank password. */
  function Submit(editing: bool, f: Fields): (r: Payload)
    ensures r.name == f.name && r.email == f.email && r.phone == f.phone && r.role == f.role
    ensures r.password.None? <==> editing && f.password == ""
    ensures r.password.Some? ==> r.password.value == f.password
  {
    var data := Payload(f.name, f.email, f.phone, f.role, Some(f.password));
    if editing && f.password == "" then data.(password := None) else data
  }

  /**
   * Creating always sends the password, even a blank one; opening a user
   * for editing and saving without typing a password sends the user's own
   * name, email, phone and role and no password at all.
   */
  lemma SubmitRules(f: Fields, u: User)
    ensures Submit(false, f).password == Some(f.password)
    ensures Submit(true, Prefill(FromUser(u))) ==
              Payload(u.name, u.email, u.phone.GetOr(""), u.role, None)
  {
  }
}
