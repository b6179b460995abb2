/**
 The canonical property names (`MixpanelProperty`). The file declaring them
 is not part of this model; the strings are the keys of the service's wire
 format that the names stand for.
 */
module PropertyNames {

  // Names used across all messages.
  const Token := "token"
  const DistinctId := "distinct_id"
  const Event := "event"
  const Alias := "alias"
  const Time := "time"
  const Ip := "ip"
  const IgnoreTime := "ignore_time"

  // Profile fields of the People messages.
  const FirstName := "first_name"
  const LastName := "last_name"
  const Name := "name"
  const Created := "created"
  const Email := "email"
  const Phone := "phone"

  // Payloads of the PeopleUnset and PeopleTrackCharge messages.
  const PeopleUnset := "$unset"
  const PeopleAmount := "$amount"

  // Keys of the Track message.
  const TrackEvent := "event"
  const TrackToken := "token"
  const TrackDistinctId := "distinct_id"
  const TrackProperties := "properties"
}
