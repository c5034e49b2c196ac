/**
 * The database connection singleton (creational/singleton.ts).
 *
 * Dafny classes have no static fields, so the static side of `DBConnection`
 * (its `instance` field and `getInstance`) is the class `DBConnectionClass`,
 * of which a program has one object. `connect` returns at once when not
 * connected and otherwise also returns, so it never changes anything, and
 * `isConnected` stays `false` for good.
 */
module Singleton {

  class DBConnection {
    var isConnected: bool

    constructor ()
      ensures !isConnected
    {
      isConnected := false;
    }

    /** `connect`: both of its paths return without doing anything. */
    method Connect()
      ensures unchanged(this)
    {
      if !isConnected {
        return;
      }
    }
  }

  class DBConnectionClass {
    var instance: DBConnection?

    /** The stored instance, once there is one, was never connected. */
    ghost predicate Valid()
      reads this, instance
    {
      instance != null ==> !instance.isConnected
    }

    constructor ()
      ensures Valid() && instance == null
    {
      instance := null;
    }

    /** `getInstance`: create and store the instance on the first call, return the stored one afterwards. */
    method GetInstance() returns (c: DBConnection)
      requires Valid()
      modifies this
      ensures Valid()
      ensures instance == c && !c.isConnected
      ensures old(instance) == null ==> fresh(c)
      ensures old(instance) != null ==> c == old(instance)
    {
      if instance == null {
        instance := new DBConnection();
        return instance;
      }
      return instance;
    }
  }

  /** The script at the end of the source file: both calls yield the same object, so it prints `true`. */
  method Demo() returns (same: bool, connected: bool)
    ensures same && !connected
  {
    var statics := new DBConnectionClass();
    var db := statics.GetInstance();
    db.Connect();
    var db1 := statics.GetInstance();
    db1.Connect();
    same := db == db1;
    connected := db.isConnected || db1.isConnected;
  }
}
