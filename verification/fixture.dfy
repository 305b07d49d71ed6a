/** The constant data that the two query resolvers of server.js build on
    every call. Each resolver writes out its own copy of the six process
    instances as an array literal; both copies are carried over here field
    by field, in the order the literals list them. */
module Fixture {
  import opened Wrappers
  import opened Schema

  /** A node instance as the literals write it: name, definition id, id,
      enter and exit. The literals never set `type` or `nodeId`. */
  function Node(name: string, definitionId: string, id: string, enter: string, exit: Option<string>): NodeInstance
  {
    NodeInstance(id := id, name := name, nodeType := None, enter := Some(enter), exit := exit,
                 definitionId := definitionId, nodeId := None)
  }

  /** A process instance as the literals write it. The literals never set
      `rootProcessInstanceId`, `rootProcessId`, `endpoint`, `start` or `end`,
      which GraphQL therefore serves as null. */
  function Instance(id: string, processId: string, parentProcessInstanceId: Option<string>,
                    processName: string, roles: seq<string>, state: ProcessInstanceState,
                    variables: string, nodes: seq<NodeInstance>): ProcessInstance
  {
    ProcessInstance(id := id, processId := processId, processName := Some(processName),
                    parentProcessInstanceId := parentProcessInstanceId,
                    rootProcessInstanceId := None, rootProcessId := None,
                    roles := Some(roles), state := state, endpoint := None, nodes := nodes,
                    variables := Some(variables), start := None, end := None)
  }

  /** The array literal returned by `AllProcessInstances`; its `variables`
      payloads are the constants `AllVariables0` to `AllVariables5` below. */
  const AllProcessInstancesData: seq<ProcessInstance> := [
    Instance(
      "e1308c27-dab7-4680-b98b-c99e5eb0d70c",
      "hotelBooking",
      Some("3619de44-13be-4225-bd22-725a9a8ccb2a"),
      "HotelBooking",
      [],
      COMPLETED,
      AllVariables0,
      [
        Node("End Event 1", "EndEvent_1", "6dac63bc-3fae-466f-b58a-b85af189d9ad", "2019-10-16T04:44:32.932Z", Some("2019-10-16T04:44:32.932Z")),
        Node("Book hotel", "ServiceTask_1", "03125a62-655d-4640-98a2-82b5172f7544", "2019-10-16T04:44:32.929Z", Some("2019-10-16T04:44:32.932Z")),
        Node("StartProcess", "StartEvent_1", "98a41db9-e1b5-4333-a15f-22e6e0a6297f", "2019-10-16T04:44:32.928Z", Some("2019-10-16T04:44:32.929Z"))
      ]),
    Instance(
      "d7b911f8-2eaa-4adb-b392-089e2a40ae03",
      "flightBooking",
      Some("3619de44-13be-4225-bd22-725a9a8ccb2a"),
      "FlightBooking",
      [],
      COMPLETED,
      AllVariables1,
      [
        Node("End Event 1", "EndEvent_1", "59fe733c-4eff-4b97-8d80-4e7609a3feaf", "2019-10-16T04:44:32.938Z", Some("2019-10-16T04:44:32.938Z")),
        Node("Book flight", "ServiceTask_1", "28b1ca3d-5134-49c5-be48-8002f65b8dae", "2019-10-16T04:44:32.938Z", Some("2019-10-16T04:44:32.938Z")),
        Node("StartProcess", "StartEvent_1", "efd5216f-bf3a-4a6f-92a6-679cde23948d", "2019-10-16T04:44:32.938Z", Some("2019-10-16T04:44:32.938Z"))
      ]),
    Instance(
      "3619de44-13be-4225-bd22-725a9a8ccb2a",
      "travels",
      None,
      "travels",
      [],
      COMPLETED,
      AllVariables2,
      [
        Node("End Event 1", "EndEvent_1", "f6b400d4-2795-4f1c-a0a1-5e931475bd63", "2019-10-16T04:56:42.927Z", Some("2019-10-16T04:56:42.927Z")),
        Node("Confirm travel", "UserTask_2", "2826eed2-8156-455e-a319-a5060a2a792c", "2019-10-16T04:44:32.941Z", Some("2019-10-16T04:56:42.927Z")),
        Node("Book Hotel", "CallActivity_1", "eb6941da-ccb1-450c-b6ac-c06113db44dd", "2019-10-16T04:44:32.927Z", Some("2019-10-16T04:44:32.937Z")),
        Node("Join", "ParallelGateway_2", "902556e9-3914-4dcb-94d3-daef64d1274c", "2019-10-16T04:44:32.94Z", Some("2019-10-16T04:44:32.941Z")),
        Node("Book Flight", "CallActivity_2", "15df98c6-7d20-475f-a74a-460d4f3c52bb", "2019-10-16T04:44:32.937Z", Some("2019-10-16T04:44:32.94Z")),
        Node("Book", "ParallelGateway_1", "b0c975c1-ae37-4fd0-a9e8-0e4516dab5ba", "2019-10-16T04:44:32.926Z", Some("2019-10-16T04:44:32.937Z")),
        Node("Join", "ExclusiveGateway_2", "0bce313d-e674-4c5b-ac53-a43d80ff4b33", "2019-10-16T04:44:32.926Z", Some("2019-10-16T04:44:32.926Z")),
        Node("is visa required", "ExclusiveGateway_1", "a8dce6f6-cd1e-4455-ab56-33ace8f0364a", "2019-10-16T04:44:32.925Z", Some("2019-10-16T04:44:32.926Z")),
        Node("Visa check", "BusinessRuleTask_1", "1f9f3b3c-bd2a-49b3-bd8b-826c7d1913a9", "2019-10-16T04:44:32.873Z", Some("2019-10-16T04:44:32.925Z")),
        Node("StartProcess", "StartEvent_1", "17e3c74c-88e9-4e4d-82b5-2e9d3f38aadb", "2019-10-16T04:44:32.871Z", Some("2019-10-16T04:44:32.873Z"))
      ]),
    Instance(
      "f0df27b1-85f9-442b-8720-aa2d6fdb0877",
      "travels",
      None,
      "travels",
      [],
      ACTIVE,
      AllVariables3,
      [
        Node("Book Flight", "CallActivity_2", "fec270e7-afc1-4612-bbdf-43e4d79d1612", "2019-10-16T04:57:04.375Z", Some("2019-10-16T04:57:04.378Z")),
        Node("Confirm travel", "UserTask_2", "ebee96bb-ec8c-4e12-bb04-015ada9684f6", "2019-10-16T04:57:04.382Z", None),
        Node("Join", "ParallelGateway_2", "73d98813-4bb9-4b18-b76d-2974f8e1de0c", "2019-10-16T04:57:04.381Z", Some("2019-10-16T04:57:04.381Z")),
        Node("Book Hotel", "CallActivity_1", "04e1c3dc-c37c-4fc0-b253-dea189e62357", "2019-10-16T04:57:04.378Z", Some("2019-10-16T04:57:04.381Z")),
        Node("Book", "ParallelGateway_1", "c6beb2de-107d-47cd-997c-d484aa3aadaa", "2019-10-16T04:57:04.375Z", Some("2019-10-16T04:57:04.378Z")),
        Node("Join", "ExclusiveGateway_2", "a1516462-3e70-45ee-80d4-069ea363dccc", "2019-10-16T04:57:04.375Z", Some("2019-10-16T04:57:04.375Z")),
        Node("is visa required", "ExclusiveGateway_1", "f44296c1-4eca-4195-b9aa-5d7e027e34e4", "2019-10-16T04:57:04.375Z", Some("2019-10-16T04:57:04.375Z")),
        Node("Visa check", "BusinessRuleTask_1", "112504e6-8642-4e54-9aa5-46b9d156bc9a", "2019-10-16T04:57:04.367Z", Some("2019-10-16T04:57:04.375Z")),
        Node("StartProcess", "StartEvent_1", "e1814458-aca4-45b4-bd8a-4c3a71de71b3", "2019-10-16T04:57:04.367Z", Some("2019-10-16T04:57:04.367Z"))
      ]),
    Instance(
      "70a4ead8-0597-403c-b361-361100b5614b",
      "flightBooking",
      Some("f0df27b1-85f9-442b-8720-aa2d6fdb0877"),
      "FlightBooking",
      [],
      COMPLETED,
      AllVariables4,
      [
        Node("End Event 1", "EndEvent_1", "354b5354-a6bf-44e2-9395-9c628523cac8", "2019-10-16T04:57:04.376Z", Some("2019-10-16T04:57:04.376Z")),
        Node("Book flight", "ServiceTask_1", "a6e1b4c8-85b6-4ace-acab-6ab21be8ad0d", "2019-10-16T04:57:04.376Z", Some("2019-10-16T04:57:04.376Z")),
        Node("StartProcess", "StartEvent_1", "718da164-24e6-426a-a8be-ad3b60a8b658", "2019-10-16T04:57:04.376Z", Some("2019-10-16T04:57:04.376Z"))
      ]),
    Instance(
      "9020cf58-8f7b-4d91-ba6c-17513beed764",
      "hotelBooking",
      Some("f0df27b1-85f9-442b-8720-aa2d6fdb0877"),
      "HotelBooking",
      [],
      COMPLETED,
      AllVariables5,
      [
        Node("End Event 1", "EndEvent_1", "6846df98-3484-4f02-a48d-a5e599fa5532", "2019-10-16T04:57:04.38Z", Some("2019-10-16T04:57:04.38Z")),
        Node("Book hotel", "ServiceTask_1", "93083686-38c8-4e77-b05a-d00e6a196a1d", "2019-10-16T04:57:04.379Z", Some("2019-10-16T04:57:04.38Z")),
        Node("StartProcess", "StartEvent_1", "dd64920c-71ef-4070-b0fb-a861846a1d0e", "2019-10-16T04:57:04.379Z", Some("2019-10-16T04:57:04.379Z"))
      ])
  ]

  /** The array literal that `ProcessInstances` builds before filtering it;
      the resolver writes it out a second time rather than sharing the one
      above. Its `variables` payloads are `FilteredVariables0` to
      `FilteredVariables5` below. */
  const ProcessInstancesData: seq<ProcessInstance> := [
    Instance(
      "e1308c27-dab7-4680-b98b-c99e5eb0d70c",
      "hotelBooking",
      Some("3619de44-13be-4225-bd22-725a9a8ccb2a"),
      "HotelBooking",
      [],
      COMPLETED,
      FilteredVariables0,
      [
        Node("End Event 1", "EndEvent_1", "6dac63bc-3fae-466f-b58a-b85af189d9ad", "2019-10-16T04:44:32.932Z", Some("2019-10-16T04:44:32.932Z")),
        Node("Book hotel", "ServiceTask_1", "03125a62-655d-4640-98a2-82b5172f7544", "2019-10-16T04:44:32.929Z", Some("2019-10-16T04:44:32.932Z")),
        Node("StartProcess", "StartEvent_1", "98a41db9-e1b5-4333-a15f-22e6e0a6297f", "2019-10-16T04:44:32.928Z", Some("2019-10-16T04:44:32.929Z"))
      ]),
    Instance(
      "d7b911f8-2eaa-4adb-b392-089e2a40ae03",
      "flightBooking",
      Some("3619de44-13be-4225-bd22-725a9a8ccb2a"),
      "FlightBooking",
      [],
      COMPLETED,
      FilteredVariables1,
      [
        Node("End Event 1", "EndEvent_1", "59fe733c-4eff-4b97-8d80-4e7609a3feaf", "2019-10-16T04:44:32.938Z", Some("2019-10-16T04:44:32.938Z")),
        Node("Book flight", "ServiceTask_1", "28b1ca3d-5134-49c5-be48-8002f65b8dae", "2019-10-16T04:44:32.938Z", Some("2019-10-16T04:44:32.938Z")),
        Node("StartProcess", "StartEvent_1", "efd5216f-bf3a-4a6f-92a6-679cde23948d", "2019-10-16T04:44:32.938Z", Some("2019-10-16T04:44:32.938Z"))
      ]),
    Instance(
      "3619de44-13be-4225-bd22-725a9a8ccb2a",
      "travels",
      None,
      "travels",
      [],
      COMPLETED,
      FilteredVariables2,
      [
        Node("End Event 1", "EndEvent_1", "f6b400d4-2795-4f1c-a0a1-5e931475bd63", "2019-10-16T04:56:42.927Z", Some("2019-10-16T04:56:42.927Z")),
        Node("Confirm travel", "UserTask_2", "2826eed2-8156-455e-a319-a5060a2a792c", "2019-10-16T04:44:32.941Z", Some("2019-10-16T04:56:42.927Z")),
        Node("Book Hotel", "CallActivity_1", "eb6941da-ccb1-450c-b6ac-c06113db44dd", "2019-10-16T04:44:32.927Z", Some("2019-10-16T04:44:32.937Z")),
        Node("Join", "ParallelGateway_2", "902556e9-3914-4dcb-94d3-daef64d1274c", "2019-10-16T04:44:32.94Z", Some("2019-10-16T04:44:32.941Z")),
        Node("Book Flight", "CallActivity_2", "15df98c6-7d20-475f-a74a-460d4f3c52bb", "2019-10-16T04:44:32.937Z", Some("2019-10-16T04:44:32.94Z")),
        Node("Book", "ParallelGateway_1", "b0c975c1-ae37-4fd0-a9e8-0e4516dab5ba", "2019-10-16T04:44:32.926Z", Some("2019-10-16T04:44:32.937Z")),
        Node("Join", "ExclusiveGateway_2", "0bce313d-e674-4c5b-ac53-a43d80ff4b33", "2019-10-16T04:44:32.926Z", Some("2019-10-16T04:44:32.926Z")),
        Node("is visa required", "ExclusiveGateway_1", "a8dce6f6-cd1e-4455-ab56-33ace8f0364a", "2019-10-16T04:44:32.925Z", Some("2019-10-16T04:44:32.926Z")),
        Node("Visa check", "BusinessRuleTask_1", "1f9f3b3c-bd2a-49b3-bd8b-826c7d1913a9", "2019-10-16T04:44:32.873Z", Some("2019-10-16T04:44:32.925Z")),
        Node("StartProcess", "StartEvent_1", "17e3c74c-88e9-4e4d-82b5-2e9d3f38aadb", "2019-10-16T04:44:32.871Z", Some("2019-10-16T04:44:32.873Z"))
      ]),
    Instance(
      "f0df27b1-85f9-442b-8720-aa2d6fdb0877",
      "travels",
      None,
      "travels",
      [],
      ACTIVE,
      FilteredVariables3,
      [
        Node("Book Flight", "CallActivity_2", "fec270e7-afc1-4612-bbdf-43e4d79d1612", "2019-10-16T04:57:04.375Z", Some("2019-10-16T04:57:04.378Z")),
        Node("Confirm travel", "UserTask_2", "ebee96bb-ec8c-4e12-bb04-015ada9684f6", "2019-10-16T04:57:04.382Z", None),
        Node("Join", "ParallelGateway_2", "73d98813-4bb9-4b18-b76d-2974f8e1de0c", "2019-10-16T04:57:04.381Z", Some("2019-10-16T04:57:04.381Z")),
        Node("Book Hotel", "CallActivity_1", "04e1c3dc-c37c-4fc0-b253-dea189e62357", "2019-10-16T04:57:04.378Z", Some("2019-10-16T04:57:04.381Z")),
        Node("Book", "ParallelGateway_1", "c6beb2de-107d-47cd-997c-d484aa3aadaa", "2019-10-16T04:57:04.375Z", Some("2019-10-16T04:57:04.378Z")),
        Node("Join", "ExclusiveGateway_2", "a1516462-3e70-45ee-80d4-069ea363dccc", "2019-10-16T04:57:04.375Z", Some("2019-10-16T04:57:04.375Z")),
        Node("is visa required", "ExclusiveGateway_1", "f44296c1-4eca-4195-b9aa-5d7e027e34e4", "2019-10-16T04:57:04.375Z", Some("2019-10-16T04:57:04.375Z")),
        Node("Visa check", "BusinessRuleTask_1", "112504e6-8642-4e54-9aa5-46b9d156bc9a", "2019-10-16T04:57:04.367Z", Some("2019-10-16T04:57:04.375Z")),
        Node("StartProcess", "StartEvent_1", "e1814458-aca4-45b4-bd8a-4c3a71de71b3", "2019-10-16T04:57:04.367Z", Some("2019-10-16T04:57:04.367Z"))
      ]),
    Instance(
      "70a4ead8-0597-403c-b361-361100b5614b",
      "flightBooking",
      Some("f0df27b1-85f9-442b-8720-aa2d6fdb0877"),
      "FlightBooking",
      [],
      COMPLETED,
      FilteredVariables4,
      [
        Node("End Event 1", "EndEvent_1", "354b5354-a6bf-44e2-9395-9c628523cac8", "2019-10-16T04:57:04.376Z", Some("2019-10-16T04:57:04.376Z")),
        Node("Book flight", "ServiceTask_1", "a6e1b4c8-85b6-4ace-acab-6ab21be8ad0d", "2019-10-16T04:57:04.376Z", Some("2019-10-16T04:57:04.376Z")),
        Node("StartProcess", "StartEvent_1", "718da164-24e6-426a-a8be-ad3b60a8b658", "2019-10-16T04:57:04.376Z", Some("2019-10-16T04:57:04.376Z"))
      ]),
    Instance(
      "9020cf58-8f7b-4d91-ba6c-17513beed764",
      "hotelBooking",
      Some("f0df27b1-85f9-442b-8720-aa2d6fdb0877"),
      "HotelBooking",
      [],
      COMPLETED,
      FilteredVariables5,
      [
        Node("End Event 1", "EndEvent_1", "6846df98-3484-4f02-a48d-a5e599fa5532", "2019-10-16T04:57:04.38Z", Some("2019-10-16T04:57:04.38Z")),
        Node("Book hotel", "ServiceTask_1", "93083686-38c8-4e77-b05a-d00e6a196a1d", "2019-10-16T04:57:04.379Z", Some("2019-10-16T04:57:04.38Z")),
        Node("StartProcess", "StartEvent_1", "dd64920c-71ef-4070-b0fb-a861846a1d0e", "2019-10-16T04:57:04.379Z", Some("2019-10-16T04:57:04.379Z"))
      ])
  ]

  // The `variables` payloads of the literal returned by `AllProcessInstances`,
  // in instance order: opaque JSON text, kept verbatim.
  const AllVariables0: string :=
    @"{""trip"":{""begin"":""2019-09-30T22:00:00Z[UTC]"",""city"":""Brisbane"",""country"":""India"",""end"":""2019-10-25T22:00:00Z[UTC]"",""visaRequired"":false},""hotel"":{""address"":{""city"":""Brisbane"",""country"":""India"",""street"":""street"",""zipCode"":""12345""},""bookingNumber"":""XX-012345"",""name"":""Perfect hotel"",""phone"":""09876543""},""traveller"":{""address"":{""city"":""Bangalore"",""country"":""India"",""street"":""test"",""zipCode"":""560093""},""email"":""ajaganat@redhat.com"",""firstName"":""Ajay"",""lastName"":""Jaganathan"",""nationality"":""Polish""}}"
  const AllVariables1: string :=
    @"{""flight"":{""arrival"":""2019-10-25T22:00:00Z[UTC]"",""departure"":""2019-09-30T22:00:00Z[UTC]"",""flightNumber"":""MX555""},""trip"":{""begin"":""2019-09-30T22:00:00Z[UTC]"",""city"":""Brisbane"",""country"":""India"",""end"":""2019-10-25T22:00:00Z[UTC]"",""visaRequired"":false},""traveller"":{""address"":{""city"":""Bangalore"",""country"":""India"",""street"":""test"",""zipCode"":""560093""},""email"":""ajaganat@redhat.com"",""firstName"":""Ajay"",""lastName"":""Jaganathan"",""nationality"":""Polish""}}"
  const AllVariables2: string :=
    @"{""flight"":{""arrival"":""2019-10-25T22:00:00Z[UTC]"",""departure"":""2019-09-30T22:00:00Z[UTC]"",""flightNumber"":""MX555""},""trip"":{""begin"":""2019-09-30T22:00:00Z[UTC]"",""city"":""Brisbane"",""country"":""India"",""end"":""2019-10-25T22:00:00Z[UTC]"",""visaRequired"":false},""hotel"":{""address"":{""city"":""Brisbane"",""country"":""India"",""street"":""street"",""zipCode"":""12345""},""bookingNumber"":""XX-012345"",""name"":""Perfect hotel"",""phone"":""09876543""},""traveller"":{""address"":{""city"":""Bangalore"",""country"":""India"",""street"":""test"",""zipCode"":""560093""},""email"":""ajaganat@redhat.com"",""firstName"":""Ajay"",""lastName"":""Jaganathan"",""nationality"":""Polish""}}"
  const AllVariables3: string :=
    @"{""flight"":{""arrival"":""2019-10-30T22:00:00Z[UTC]"",""departure"":""2019-09-30T22:00:00Z[UTC]"",""flightNumber"":""MX555""},""hotel"":{""address"":{""city"":""Bangalore"",""country"":""India"",""street"":""street"",""zipCode"":""12345""},""bookingNumber"":""XX-012345"",""name"":""Perfect hotel"",""phone"":""09876543""},""trip"":{""begin"":""2019-09-30T22:00:00Z[UTC]"",""city"":""Bangalore"",""country"":""India"",""end"":""2019-10-30T22:00:00Z[UTC]"",""visaRequired"":false},""traveller"":{""address"":{""city"":""Bangalore"",""country"":""Poland"",""street"":""Bangalore"",""zipCode"":""560093""},""email"":""ajaganat@redhat.com"",""firstName"":""Ajay"",""lastName"":""Jaganathan"",""nationality"":""Polish""}}"
  const AllVariables4: string :=
    @"{""flight"":{""arrival"":""2019-10-30T22:00:00Z[UTC]"",""departure"":""2019-09-30T22:00:00Z[UTC]"",""flightNumber"":""MX555""},""trip"":{""begin"":""2019-09-30T22:00:00Z[UTC]"",""city"":""Bangalore"",""country"":""India"",""end"":""2019-10-30T22:00:00Z[UTC]"",""visaRequired"":false},""traveller"":{""address"":{""city"":""Bangalore"",""country"":""Poland"",""street"":""Bangalore"",""zipCode"":""560093""},""email"":""ajaganat@redhat.com"",""firstName"":""Ajay"",""lastName"":""Jaganathan"",""nationality"":""Polish""}}"
  const AllVariables5: string :=
    @"{""trip"":{""begin"":""2019-09-30T22:00:00Z[UTC]"",""city"":""Bangalore"",""country"":""India"",""end"":""2019-10-30T22:00:00Z[UTC]"",""visaRequired"":false},""hotel"":{""address"":{""city"":""Bangalore"",""country"":""India"",""street"":""street"",""zipCode"":""12345""},""bookingNumber"":""XX-012345"",""name"":""Perfect hotel"",""phone"":""09876543""},""traveller"":{""address"":{""city"":""Bangalore"",""country"":""Poland"",""street"":""Bangalore"",""zipCode"":""560093""},""email"":""ajaganat@redhat.com"",""firstName"":""Ajay"",""lastName"":""Jaganathan"",""nationality"":""Polish""}}"

  // The `variables` payloads of the literal built by `ProcessInstances`.
  const FilteredVariables0: string :=
    @"{""trip"":{""begin"":""2019-09-30T22:00:00Z[UTC]"",""city"":""Brisbane"",""country"":""India"",""end"":""2019-10-25T22:00:00Z[UTC]"",""visaRequired"":false},""hotel"":{""address"":{""city"":""Brisbane"",""country"":""India"",""street"":""street"",""zipCode"":""12345""},""bookingNumber"":""XX-012345"",""name"":""Perfect hotel"",""phone"":""09876543""},""traveller"":{""address"":{""city"":""Bangalore"",""country"":""India"",""street"":""test"",""zipCode"":""560093""},""email"":""ajaganat@redhat.com"",""firstName"":""Ajay"",""lastName"":""Jaganathan"",""nationality"":""Polish""}}"
  const FilteredVariables1: string :=
    @"{""flight"":{""arrival"":""2019-10-25T22:00:00Z[UTC]"",""departure"":""2019-09-30T22:00:00Z[UTC]"",""flightNumber"":""MX555""},""trip"":{""begin"":""2019-09-30T22:00:00Z[UTC]"",""city"":""Brisbane"",""country"":""India"",""end"":""2019-10-25T22:00:00Z[UTC]"",""visaRequired"":false},""traveller"":{""address"":{""city"":""Bangalore"",""country"":""India"",""street"":""test"",""zipCode"":""560093""},""email"":""ajaganat@redhat.com"",""firstName"":""Ajay"",""lastName"":""Jaganathan"",""nationality"":""Polish""}}"
  const FilteredVariables2: string :=
    @"{""flight"":{""arrival"":""2019-10-25T22:00:00Z[UTC]"",""departure"":""2019-09-30T22:00:00Z[UTC]"",""flightNumber"":""MX555""},""trip"":{""begin"":""2019-09-30T22:00:00Z[UTC]"",""city"":""Brisbane"",""country"":""India"",""end"":""2019-10-25T22:00:00Z[UTC]"",""visaRequired"":false},""hotel"":{""address"":{""city"":""Brisbane"",""country"":""India"",""street"":""street"",""zipCode"":""12345""},""bookingNumber"":""XX-012345"",""name"":""Perfect hotel"",""phone"":""09876543""},""traveller"":{""address"":{""city"":""Bangalore"",""country"":""India"",""street"":""test"",""zipCode"":""560093""},""email"":""ajaganat@redhat.com"",""firstName"":""Ajay"",""lastName"":""Jaganathan"",""nationality"":""Polish""}}"
  const FilteredVariables3: string :=
    @"{""flight"":{""arrival"":""2019-10-30T22:00:00Z[UTC]"",""departure"":""2019-09-30T22:00:00Z[UTC]"",""flightNumber"":""MX555""},""hotel"":{""address"":{""city"":""Bangalore"",""country"":""India"",""street"":""street"",""zipCode"":""12345""},""bookingNumber"":""XX-012345"",""name"":""Perfect hotel"",""phone"":""09876543""},""trip"":{""begin"":""2019-09-30T22:00:00Z[UTC]"",""city"":""Bangalore"",""country"":""India"",""end"":""2019-10-30T22:00:00Z[UTC]"",""visaRequired"":false},""traveller"":{""address"":{""city"":""Bangalore"",""country"":""Poland"",""street"":""Bangalore"",""zipCode"":""560093""},""email"":""ajaganat@redhat.com"",""firstName"":""Ajay"",""lastName"":""Jaganathan"",""nationality"":""Polish""}}"
  const FilteredVariables4: string :=
    @"{""flight"":{""arrival"":""2019-10-30T22:00:00Z[UTC]"",""departure"":""2019-09-30T22:00:00Z[UTC]"",""flightNumber"":""MX555""},""trip"":{""begin"":""2019-09-30T22:00:00Z[UTC]"",""city"":""Bangalore"",""country"":""India"",""end"":""2019-10-30T22:00:00Z[UTC]"",""visaRequired"":false},""traveller"":{""address"":{""city"":""Bangalore"",""country"":""Poland"",""street"":""Bangalore"",""zipCode"":""560093""},""email"":""ajaganat@redhat.com"",""firstName"":""Ajay"",""lastName"":""Jaganathan"",""nationality"":""Polish""}}"
  const FilteredVariables5: string :=
    @"{""trip"":{""begin"":""2019-09-30T22:00:00Z[UTC]"",""city"":""Bangalore"",""country"":""India"",""end"":""2019-10-30T22:00:00Z[UTC]"",""visaRequired"":false},""hotel"":{""address"":{""city"":""Bangalore"",""country"":""India"",""street"":""street"",""zipCode"":""12345""},""bookingNumber"":""XX-012345"",""name"":""Perfect hotel"",""phone"":""09876543""},""traveller"":{""address"":{""city"":""Bangalore"",""country"":""Poland"",""street"":""Bangalore"",""zipCode"":""560093""},""email"":""ajaganat@redhat.com"",""firstName"":""Ajay"",""lastName"":""Jaganathan"",""nationality"":""Polish""}}"
}
