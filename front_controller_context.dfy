/** The process-wide attribute store of FrontControllerContext.java, in its
    sequential meaning: a map from attribute names to objects. */
module Context {
  import opened Wrappers

  class FrontControllerContext {
    /** The backing map. A ConcurrentHashMap holds no null names or values,
        hence the non-null types. */
    var attributes: map<string, object>

    constructor ()
      ensures forall name :: GetAttribute(name).None?
    {
      attributes := map[];
    }

    function GetAttribute(name: string): (r: Option<object>)
      reads this
      ensures r.Some? <==> name in attributes
      ensures r.Some? ==> r.value == attributes[name]
    {
      Get(attributes, name)
    }

    /** The new value is what the name now reads, it replaces any earlier
        one, and every other name reads as before. */
    method SetAttribute(name: string, obj: object)
      modifies this
      ensures GetAttribute(name) == Some(obj)
      ensures forall other | other != name :: GetAttribute(other) == old(GetAttribute(other))
      ensures attributes == old(attributes)[name := obj]
    {
      attributes := attributes[name := obj];
    }
  }
}
