/** The sample records the store is constructed with, table by table and in the
    order they are inserted. Descriptions and image URLs are blanked; every other
    field is kept as seeded. */
module Seed {
  import opened Seqs
  import opened Schema

  const CarouselItemsData: seq<InsertCarouselItem> := [
    InsertCarouselItem("Celebrating West India's Cultural Heritage", "", "", 1),
    InsertCarouselItem("Vivid Colors of Rajasthan", "", "", 2),
    InsertCarouselItem("Vibrant Gujarat", "", "", 3)
  ]

  const CulturalItemsData: seq<InsertCulturalItem> := [
    InsertCulturalItem("Warli Art Tradition", "", "", "art", "Maharashtra", Some(true)),
    InsertCulturalItem("Gujarati Folk Music", "", "", "music", "Gujarat", Some(true)),
    InsertCulturalItem("Lavani Dance", "", "", "dance", "Maharashtra", Some(true)),
    InsertCulturalItem("Ghoomar Dance", "", "", "dance", "Rajasthan", Some(false)),
    InsertCulturalItem("Bandhani Textile Art", "", "", "art", "Gujarat", Some(false)),
    InsertCulturalItem("Diwali Festival", "", "", "festivals", "All States", Some(false)),
    InsertCulturalItem("Dhavali Folk Music", "", "", "music", "Maharashtra", Some(false)),
    InsertCulturalItem("Navratri Celebrations", "", "", "festivals", "Gujarat", Some(false)),
    InsertCulturalItem("Miniature Painting", "", "", "art", "Rajasthan", Some(false))
  ]

  const EventsData: seq<InsertEvent> := [
    InsertEvent("West Indian Art Exhibition", "", "2025-04-12T10:00:00", "April", 12, "10:00 AM - 12:00 PM", "NCC Ground, Bharat Mahotsav", "art", Some("")),
    InsertEvent("Classical Dance Performances", "", "2025-04-12T12:30:00", "April", 12, "12:30 PM - 2:30 PM", "NCC Ground, Bharat Mahotsav", "dance", Some("")),
    InsertEvent("Folk Music Celebration", "", "2025-04-12T15:00:00", "April", 12, "3:00 PM - 5:00 PM", "NCC Ground, Bharat Mahotsav", "music", Some("")),
    InsertEvent("Traditional Games & Activities", "", "2025-04-12T17:00:00", "April", 12, "5:00 PM - 6:30 PM", "NCC Ground, Bharat Mahotsav", "games", Some("")),
    InsertEvent("Cultural Photo Booth", "", "2025-04-12T17:00:00", "April", 12, "10:00 AM - 7:00 PM (All Day)", "NCC Ground, Bharat Mahotsav", "photobooth", Some("")),
    InsertEvent("Chief Guest Address & Closing Ceremony", "", "2025-04-12T19:00:00", "April", 12, "7:00 PM - 9:00 PM", "NCC Ground, Bharat Mahotsav", "guest", Some(""))
  ]

  const GalleryItemsData: seq<InsertGalleryItem> := [
    InsertGalleryItem("Navratri Celebration", "Gujarat", "", "festivals"),
    InsertGalleryItem("Kathak Performance", "Rajasthan", "", "performances"),
    InsertGalleryItem("Traditional Pottery", "Gujarat", "", "artifacts"),
    InsertGalleryItem("Mehrangarh Fort", "Jodhpur, Rajasthan", "", "heritage"),
    InsertGalleryItem("Diwali Celebration", "Maharashtra", "", "festivals"),
    InsertGalleryItem("Ghoomar Dance", "Rajasthan", "", "performances"),
    InsertGalleryItem("Bandhani Textiles", "Gujarat", "", "artifacts"),
    InsertGalleryItem("Ranakpur Jain Temple", "Rajasthan", "", "heritage"),
    InsertGalleryItem("Holi Festival", "Maharashtra", "", "festivals"),
    InsertGalleryItem("Bharatanatyam Dance", "Gujarat", "", "performances"),
    InsertGalleryItem("Traditional Jewelry", "Rajasthan", "", "artifacts"),
    InsertGalleryItem("Gateway of India", "Mumbai, Maharashtra", "", "heritage")
  ]

  const HeritageInfoData: seq<InsertHeritageInfo> := [
    InsertHeritageInfo("Gujarat", "", Some(""), "states"),
    InsertHeritageInfo("Maharashtra", "", Some(""), "states"),
    InsertHeritageInfo("Rajasthan", "", Some(""), "states"),
    InsertHeritageInfo("Madhya Pradesh", "", Some(""), "states"),
    InsertHeritageInfo("Uttar Pradesh", "", Some(""), "states"),
    InsertHeritageInfo("Culinary Traditions", "", Some(""), "cuisine"),
    InsertHeritageInfo("Traditional Attire", "", Some(""), "attire"),
    InsertHeritageInfo("Festivals & Celebrations", "", Some(""), "festivals")
  ]

  /** How many records each seeded table starts with. */
  lemma SeedSizes()
    ensures |CarouselItemsData| == 3 && |CulturalItemsData| == 9 && |EventsData| == 6
    ensures |GalleryItemsData| == 12 && |HeritageInfoData| == 8
  {
  }
}
