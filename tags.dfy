/** The callback tags carried by the bot's inline buttons, the two
    tag-to-label tables, and the way a `respond_to_order:<id>` tag is built
    (`fmt.Sprintf` with "%d") and taken apart again (`strings.Split` on ":"). */
module Tags {
  import opened Model
  import Strconv

  const RoleCustomer: string := "role_customer"
  const RoleExecutor: string := "role_executor"
  const SpecVideographer: string := "specialization_videographer"
  const SpecPhotographer: string := "specialization_photographer"
  const CreateOrder: string := "create_order"
  const MyOrders: string := "my_orders"
  const OrderSpecVideographer: string := "order_spec_videographer"
  const OrderSpecPhotographer: string := "order_spec_photographer"
  const RespondPrefix: string := "respond_to_order:"

  /** The label stored as a provider's specialization, by button tag. */
  const ProviderSpecLabels: map<string, string> :=
    map[SpecVideographer := Videographer, SpecPhotographer := Photographer]

  /** The label stored as an order's specialization, by button tag. */
  const OrderSpecLabels: map<string, string> :=
    map[OrderSpecVideographer := Videographer, OrderSpecPhotographer := Photographer]

  /** Indexing a Go map: a missing key reads as the empty string. */
  function Lookup(m: map<string, string>, key: string): string {
    if key in m then m[key] else ""
  }

  /** The two tables give the same label for the same kind of specialist, and
      different labels for different kinds, so an order placed for a kind is
      matched against the providers who picked that kind. */
  lemma SpecLabelsAgree()
    ensures Lookup(OrderSpecLabels, OrderSpecVideographer) == Lookup(ProviderSpecLabels, SpecVideographer) == Videographer
    ensures Lookup(OrderSpecLabels, OrderSpecPhotographer) == Lookup(ProviderSpecLabels, SpecPhotographer) == Photographer
    ensures Videographer != Photographer
  {
  }

  /** `strings.Split(s, sep)` for a one-character separator. */
  function Split(s: string, sep: char): (parts: seq<string>)
    ensures 0 < |parts|
  {
    if s == [] then [[]]
    else
      var rest := Split(s[1..], sep);
      if s[0] == sep then [[]] + rest
      else [[s[0]] + rest[0]] + rest[1..]
  }

  /** `strings.Join(parts, sep)` for a one-character separator. */
  function Join(parts: seq<string>, sep: char): string
    requires 0 < |parts|
  {
    if |parts| == 1 then parts[0] else parts[0] + [sep] + Join(parts[1..], sep)
  }

  /** A text that holds the separator splits into at least two fields, and
      one that does not is a single field. */
  lemma {:induction false} SplitFieldCount(s: string, sep: char)
    ensures sep in s <==> 1 < |Split(s, sep)|
  {
    if s != [] {
      SplitFieldCount(s[1..], sep);
      assert sep in s <==> s[0] == sep || sep in s[1..];
    }
  }

  /** Splitting and joining back on the same separator gives the text again. */
  lemma {:induction false} JoinSplit(s: string, sep: char)
    ensures Join(Split(s, sep), sep) == s
  {
    if s != [] {
      var rest := Split(s[1..], sep);
      JoinSplit(s[1..], sep);
      if s[0] == sep {
        assert Split(s, sep) == [[]] + rest;
        assert ([[]] + rest)[1..] == rest;
        assert s == [sep] + s[1..];
      } else {
        var parts := Split(s, sep);
        assert parts == [[s[0]] + rest[0]] + rest[1..];
        if |rest| == 1 {
          assert s == [s[0]] + s[1..];
        } else {
          assert parts[1..] == rest[1..];
          assert Join(rest, sep) == rest[0] + [sep] + Join(rest[1..], sep);
          assert s == [s[0]] + s[1..];
        }
      }
    }
  }

  /** Text that holds no separator is one field. */
  lemma {:induction false} SplitWithoutSeparator(s: string, sep: char)
    requires sep !in s
    ensures Split(s, sep) == [s]
  {
    if s != [] {
      assert sep !in s[1..];
      SplitWithoutSeparator(s[1..], sep);
      assert s == [s[0]] + s[1..];
    }
  }

  /** A separator between two texts ends the fields of the first. */
  lemma {:induction false} SplitAtSeparator(a: string, b: string, sep: char)
    ensures Split(a + [sep] + b, sep) == Split(a, sep) + Split(b, sep)
  {
    var x := a + [sep] + b;
    if a == [] {
      assert x == [sep] + b;
      assert x[1..] == b;
    } else {
      assert x[1..] == a[1..] + [sep] + b;
      var inner := Split(a[1..], sep);
      var tail := Split(x[1..], sep);
      assert tail == inner + Split(b, sep) by {
        SplitAtSeparator(a[1..], b, sep);
      }
      SplitCons(x, a, Split(b, sep), sep);
    }
  }

  /** One step of SplitAtSeparator: both texts start with the same character. */
  lemma SplitCons(x: string, a: string, rest: seq<string>, sep: char)
    requires x != [] && a != [] && x[0] == a[0]
    requires Split(x[1..], sep) == Split(a[1..], sep) + rest
    ensures Split(x, sep) == Split(a, sep) + rest
  {
    var tail, inner := Split(x[1..], sep), Split(a[1..], sep);
    if a[0] == sep {
      assert [[]] + tail == ([[]] + inner) + rest;
    } else {
      MergeFirstField([a[0]], tail, inner, rest);
    }
  }

  /** Gluing a prefix onto the first field commutes with appending fields. */
  lemma MergeFirstField(c: string, tail: seq<string>, inner: seq<string>, rest: seq<string>)
    requires tail == inner + rest && 0 < |inner|
    ensures [c + tail[0]] + tail[1..] == ([c + inner[0]] + inner[1..]) + rest
  {
    assert tail[1..] == inner[1..] + rest;
  }

  /** The callback tag of the button sent with a new-order notification. */
  function RespondTag(orderId: int): (tag: string)
    ensures RespondPrefix <= tag
  {
    RespondPrefix + Strconv.FormatInt(orderId)
  }

  /** `strings.Split(data, ":")[1]` for a tag that starts with the
      respond-to-order prefix, so that it holds at least one ':'. */
  function OrderIdField(data: string): string
    requires RespondPrefix <= data
  {
    assert data[|RespondPrefix| - 1] == ':';
    SplitFieldCount(data, ':');
    Split(data, ':')[1]
  }

  /** The id written into a respond-to-order tag is the id read out of it. */
  lemma RespondTagRoundTrip(orderId: int)
    requires MinInt64 <= orderId <= MaxInt64
    ensures OrderIdField(RespondTag(orderId)) == Strconv.FormatInt(orderId)
    ensures Strconv.ParseInt(OrderIdField(RespondTag(orderId))) == Strconv.Parsed(orderId)
  {
    var digits := Strconv.FormatInt(orderId);
    var head := "respond_to_order";
    assert RespondTag(orderId) == head + [':'] + digits;
    assert ':' !in head;
    assert ':' !in digits;
    SplitAtSeparator(head, digits, ':');
    SplitWithoutSeparator(head, ':');
    SplitWithoutSeparator(digits, ':');
    Strconv.FormatIntRoundTrip(orderId);
  }
}
