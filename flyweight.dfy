/**
 * Shared vehicle types with the Flyweight pattern (structural/flyweight.ts).
 *
 * The factory interns `VehicleType` objects in a map keyed by the string
 * `name_icon_color`. Because the parts are joined with '_' and may themselves
 * contain '_', two different triples can produce the same key; the second one
 * then receives the object created for the first.
 */
module Flyweight {

  /** What `VehicleType.render` writes: its shared fields and the position it was given. */
  datatype Rendering = Rendering(name: string, icon: string, color: string, x: int, y: int)

  class VehicleType {
    const name: string
    const icon: string
    const color: string

    constructor (name: string, icon: string, color: string)
      ensures this.name == name && this.icon == icon && this.color == color
    {
      this.name := name;
      this.icon := icon;
      this.color := color;
    }

    method Render(x: int, y: int) returns (r: Rendering)
      ensures r == Rendering(name, icon, color, x, y)
    {
      r := Rendering(name, icon, color, x, y);
    }
  }

  /** The cache key `${name}_${icon}_${color}`: the name, the icon and the colour in that order, the first two each followed by '_'. */
  function Key(name: string, icon: string, color: string): (r: string)
    ensures |r| == |name| + |icon| + |color| + 2
    ensures r[..|name|] == name && r[|name|] == '_'
    ensures r[|name| + 1..|name| + 1 + |icon|] == icon && r[|name| + 1 + |icon|] == '_'
    ensures r[|name| + |icon| + 2..] == color
  {
    name + "_" + icon + "_" + color
  }

  /** When neither the name nor the icon contains '_', the key determines the triple. */
  lemma KeyDeterminesParts(n1: string, i1: string, c1: string, n2: string, i2: string, c2: string)
    requires '_' !in n1 && '_' !in n2 && '_' !in i1 && '_' !in i2
    requires Key(n1, i1, c1) == Key(n2, i2, c2)
    ensures n1 == n2 && i1 == i2 && c1 == c2
  {
  }

  /** Joining with '_' is not injective: ("a_b", "c") and ("a", "b_c") share a key. */
  lemma KeyCollision(color: string)
    ensures Key("a_b", "c", color) == Key("a", "b_c", color)
    ensures ("a_b", "c") != ("a", "b_c")
  {
    assert "a_b" + "_" + "c" == "a" + "_" + "b_c";
  }

  class VehicleTypeFactory {
    var types: map<string, VehicleType>

    /** Every stored type sits under the key its own fields produce. */
    ghost predicate Valid()
      reads this
    {
      forall k :: k in types ==> Key(types[k].name, types[k].icon, types[k].color) == k
    }

    constructor ()
      ensures Valid() && types == map[]
    {
      types := map[];
    }

    /**
     * `getVehicleType`: the object stored under the key, created and stored
     * on the first request. Existing entries are never replaced or removed.
     */
    method GetVehicleType(name: string, icon: string, color: string) returns (t: VehicleType)
      requires Valid()
      modifies this
      ensures Valid()
      ensures Key(name, icon, color) in types && types[Key(name, icon, color)] == t
      ensures Key(t.name, t.icon, t.color) == Key(name, icon, color)
      ensures Key(name, icon, color) in old(types) ==> t == old(types)[Key(name, icon, color)] && types == old(types)
      ensures Key(name, icon, color) !in old(types) ==>
        fresh(t) && t.name == name && t.icon == icon && t.color == color &&
        types == old(types)[Key(name, icon, color) := t]
      ensures types.Keys == old(types).Keys + {Key(name, icon, color)}
      ensures forall k :: k in old(types) ==> k in types && types[k] == old(types)[k]
    {
      var key := Key(name, icon, color);
      if key !in types {
        var created := new VehicleType(name, icon, color);
        types := types[key := created];
      }
      t := types[key];
    }
  }

  class Vehicle {
    const x: int
    const y: int
    const vehicleType: VehicleType

    constructor (x: int, y: int, vehicleType: VehicleType)
      ensures this.x == x && this.y == y && this.vehicleType == vehicleType
    {
      this.x := x;
      this.y := y;
      this.vehicleType := vehicleType;
    }

    /** `render`: delegate to the shared type with this vehicle's own position. */
    method Render() returns (r: Rendering)
      ensures r == Rendering(vehicleType.name, vehicleType.icon, vehicleType.color, x, y)
    {
      r := vehicleType.Render(x, y);
    }
  }

  /** The four type requests of the script at the end of the source file: three distinct types. */
  method DemoTypes() returns (car1: VehicleType, car2: VehicleType, bike: VehicleType, truck: VehicleType, typeCount: nat)
    ensures car1 == car2 && car1 != bike && bike != truck && car1 != truck
    ensures car1.name == "Car" && bike.name == "Bike" && truck.name == "Truck"
    ensures typeCount == 3
  {
    var factory := new VehicleTypeFactory();
    ghost var carKey := Key("Car", "\U{1F697}", "blue");
    ghost var bikeKey := Key("Bike", "\U{1F3CD}\U{FE0F}", "black");
    ghost var truckKey := Key("Truck", "\U{1F69A}", "red");
    assert carKey[0] == 'C' && bikeKey[0] == 'B' && truckKey[0] == 'T';
    car1 := factory.GetVehicleType("Car", "\U{1F697}", "blue");
    car2 := factory.GetVehicleType("Car", "\U{1F697}", "blue");
    assert factory.types.Keys == {carKey};
    bike := factory.GetVehicleType("Bike", "\U{1F3CD}\U{FE0F}", "black");
    assert factory.types.Keys == {carKey, bikeKey};
    truck := factory.GetVehicleType("Truck", "\U{1F69A}", "red");
    assert factory.types.Keys == {carKey, bikeKey, truckKey};
    typeCount := |factory.types.Keys|;
  }

  /** The script at the end of the source file: four vehicles share three types. */
  method Demo() returns (vehicles: seq<Vehicle>, typeCount: nat)
    ensures |vehicles| == 4
    ensures vehicles[0].vehicleType == vehicles[1].vehicleType
    ensures vehicles[1].vehicleType != vehicles[2].vehicleType && vehicles[2].vehicleType != vehicles[3].vehicleType
    ensures vehicles[1].vehicleType != vehicles[3].vehicleType
    ensures typeCount == 3
  {
    var car1, car2, bike, truck;
    car1, car2, bike, truck, typeCount := DemoTypes();
    var v1 := new Vehicle(10, 20, car1);
    var v2 := new Vehicle(15, 25, car2);
    var v3 := new Vehicle(20, 30, bike);
    var v4 := new Vehicle(50, 60, truck);
    vehicles := [v1, v2, v3, v4];
  }

  /** Colliding triples: the second request receives the object made for the first. */
  method CollisionDemo() returns (first: VehicleType, second: VehicleType)
    ensures first == second
    ensures second.name == "a_b" && second.icon == "c"
  {
    var factory := new VehicleTypeFactory();
    first := factory.GetVehicleType("a_b", "c", "red");
    KeyCollision("red");
    second := factory.GetVehicleType("a", "b_c", "red");
  }
}
