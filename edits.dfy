/** The record changes of `update` and `create`. */
module Edits {
  import opened Records
  import opened Objects
  import opened Wrappers

  /** `dojo.countryName = dojo.country; delete dojo.country;` */
  function CountryRenamed(m: map<string, Value>): (r: map<string, Value>)
    ensures "country" !in r
    ensures "countryName" in r && r["countryName"] == Lookup(m, "country")
    ensures forall k :: k != "country" && k != "countryName" ==> Lookup(r, k) == Lookup(m, k)
    ensures forall k :: k != "country" && k != "countryName" ==> (k in r <==> k in m)
  {
    m["countryName" := Lookup(m, "country")] - {"country"}
  }

  /** `update`'s change to `args.dojo` before it is saved. */
  method Update(dojo: JsObject)
    modifies dojo
    ensures dojo.props == CountryRenamed(old(dojo.props))
  {
    dojo.Set("countryName", dojo.Get("country"));
    dojo.Delete("country");
  }

  /** The ownership record `create` saves: `{owner, user_id, dojo_id}`. */
  datatype UserDojo = UserDojo(owner: int, userId: Value, dojoId: Value)

  /** `create`: stamp the creator on the dojo, and once the store has saved
      it, save the record making the creator its owner. The store's answers
      to the two saves are inputs; `link` is the ownership record handed to
      the second save, if it is reached. */
  method Create(dojo: JsObject, user: Value, saved: Result<map<string, Value>>, linked: Outcome)
    returns (reply: Result<map<string, Value>>, link: Option<UserDojo>)
    modifies dojo
    ensures dojo.props == old(dojo.props)["creator" := user]
    ensures saved.Failure? ==> link == None && reply == Failure(saved.error)
    ensures saved.Ok? ==> link == Some(UserDojo(1, dojo.Get("creator"), Lookup(saved.value, "id")))
    ensures saved.Ok? && linked.Fail? ==> reply == Failure(linked.error)
    ensures saved.Ok? && linked.Pass? ==> reply == Ok(saved.value)
  {
    dojo.Set("creator", user);
    if saved.Failure? {
      return Failure(saved.error), None;
    }
    var savedDojo := saved.value;
    link := Some(UserDojo(1, user, Lookup(savedDojo, "id")));
    if linked.Fail? {
      return Failure(linked.error), link;
    }
    reply := Ok(savedDojo);
  }
}
